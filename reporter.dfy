// Progress figures and report text of the contact-enrichment pipeline
// (crawlers/scraper-stable/reporter.py). The elapsed time since the reporter was created is a
// parameter; report lines are kept as structured values, with their numbers unformatted.
module Reporter {
  import opened Wrappers
  import Checkpoint

  /** The number of companies the ETA assumes the sheet holds. */
  const ExpectedCompanies: int := 302

  datatype Stats = Stats(
    totalProcessed: int,
    totalSuccess: int,
    totalFailed: int,
    successRate: real,
    elapsedMinutes: int,
    elapsedSeconds: int,
    remainingMinutes: int,
    lastRow: int)

  /** Whole minutes left at the average pace so far, by floor division; 0 before the first company. */
  function RemainingMinutes(processed: int, elapsed: real): (r: int)
  {
    if processed > 0 then
      var avg := elapsed / processed as real;
      (avg * (ExpectedCompanies - processed) as real / 60.0).Floor
    else 0
  }

  /** At a non-negative elapsed time the ETA is never negative while at most 302 companies are processed,
      and it goes negative past 302 because it is not clamped. */
  lemma RemainingSign(processed: int, elapsed: real)
    requires elapsed >= 0.0
    ensures processed <= ExpectedCompanies ==> RemainingMinutes(processed, elapsed) >= 0
    ensures processed > ExpectedCompanies && elapsed > 0.0 ==> RemainingMinutes(processed, elapsed) < 0
  {
    if processed > 0 {
      var avg := elapsed / processed as real;
      assert avg >= 0.0;
      var left := (ExpectedCompanies - processed) as real;
      if processed <= ExpectedCompanies {
        assert avg * left >= 0.0;
      } else if elapsed > 0.0 {
        assert avg > 0.0;
        assert avg * left < 0.0;
      }
    }
  }

  function CalculateStats(d: Checkpoint.State, elapsed: real): (r: Stats)
    ensures r.elapsedMinutes * 60 + r.elapsedSeconds == elapsed.Floor && 0 <= r.elapsedSeconds < 60
    ensures r.successRate == Checkpoint.SuccessRate(d.totalSuccess, d.totalProcessed)
    ensures r.totalProcessed == d.totalProcessed && r.totalSuccess == d.totalSuccess && r.totalFailed == d.totalFailed
    ensures r.remainingMinutes == RemainingMinutes(d.totalProcessed, elapsed)
    ensures d.totalProcessed <= 0 ==> r.remainingMinutes == 0
    ensures r.lastRow == Checkpoint.LastRowOf(d)
  {
    var minutes := (elapsed / 60.0).Floor;
    var seconds := (elapsed - 60.0 * minutes as real).Floor;
    SplitSeconds(elapsed, minutes, seconds);
    Stats(d.totalProcessed, d.totalSuccess, d.totalFailed, Checkpoint.SuccessRate(d.totalSuccess, d.totalProcessed),
          minutes, seconds, RemainingMinutes(d.totalProcessed, elapsed), Checkpoint.LastRowOf(d))
  }

  /** Python's `t // 60` and `t % 60`, truncated to int, split the whole seconds of t. */
  lemma SplitSeconds(t: real, minutes: int, seconds: int)
    requires minutes == (t / 60.0).Floor && seconds == (t - 60.0 * minutes as real).Floor
    ensures minutes * 60 + seconds == t.Floor && 0 <= seconds < 60
  {
    var m := minutes as real;
    assert m <= t / 60.0 < m + 1.0;
    assert 60.0 * m <= t < 60.0 * m + 60.0;
    var x := t - 60.0 * m;
    assert seconds as real <= x < seconds as real + 1.0;
    assert (60 * minutes + seconds) as real <= t < (60 * minutes + seconds) as real + 1.0;
  }

  /** One line of a report. */
  datatype Line =
    | Message(text: string)
    | Blank
    | Processed(count: int)
    | Succeeded(count: int, rate: real)
    | FailedCount(count: int)
    | Elapsed(minutes: int, seconds: int)
    | Remaining(minutes: int)
    | CurrentRow(row: int)
    | Finished
    | TotalProcessed(count: int)
    | TotalElapsed(minutes: int, seconds: int)
    | Average(perCompany: real)

  /** Python truthiness of an optional message. */
  predicate Given(message: Option<string>)
  {
    message.Some? && message.value != ""
  }

  /** The periodic report: optional message and blank line, counters, time, ETA when positive, current row. */
  function FormatReport(stats: Stats, message: Option<string>): (r: seq<Line>)
    ensures |r| > 0 && r[|r| - 1] == CurrentRow(stats.lastRow)
    ensures r[0].Message? <==> Given(message)
    ensures Given(message) ==> r[0] == Message(message.value) && r[1] == Blank
    ensures (exists j :: 0 <= j < |r| && r[j].Remaining?) <==> stats.remainingMinutes > 0
    ensures forall j :: 0 <= j < |r| && r[j].Remaining? ==> r[j] == Remaining(stats.remainingMinutes)
  {
    var head := if Given(message) then [Message(message.value), Blank] else [];
    var counts := [Processed(stats.totalProcessed), Succeeded(stats.totalSuccess, stats.successRate),
                   FailedCount(stats.totalFailed), Elapsed(stats.elapsedMinutes, stats.elapsedSeconds)];
    var eta := if stats.remainingMinutes > 0 then [Remaining(stats.remainingMinutes)] else [];
    var r := head + counts + eta + [CurrentRow(stats.lastRow)];
    assert forall j :: 0 <= j < |r| && r[j].Remaining? ==> j == |head| + 4 && eta != [];
    assert stats.remainingMinutes > 0 ==> r[|head| + 4] == Remaining(stats.remainingMinutes);
    r
  }

  /** The closing report: the per-company average appears only once something was processed. */
  function ReportFinal(d: Checkpoint.State, elapsed: real): (r: seq<Line>)
    ensures |r| >= 6 && r[0] == Finished && r[1] == Blank
    ensures (exists j :: 0 <= j < |r| && r[j].Average?) <==> d.totalProcessed > 0
    ensures forall j :: 0 <= j < |r| && r[j].Average? ==> r[j] == Average(elapsed.Floor as real / d.totalProcessed as real)
  {
    var stats := CalculateStats(d, elapsed);
    var lines := [Finished, Blank, TotalProcessed(stats.totalProcessed), Succeeded(stats.totalSuccess, stats.successRate),
                  FailedCount(stats.totalFailed), TotalElapsed(stats.elapsedMinutes, stats.elapsedSeconds)];
    if stats.totalProcessed > 0 then
      var avg := (stats.elapsedMinutes * 60 + stats.elapsedSeconds) as real / stats.totalProcessed as real;
      var r := lines + [Average(avg)];
      assert r[6].Average?;
      r
    else lines
  }
}
