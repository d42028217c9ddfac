// The driver of the contact-enrichment pipeline (crawlers/scraper-stable/main.py): which sheet rows
// become work items, where a run resumes, and how each item is scraped, written and recorded.
// The sheet read, every browser run, every cell write and the clock are parameters.
module CrawlerMain {
  import opened Wrappers
  import opened Text
  import Utils
  import Checkpoint
  import Scraper

  /** A company that still lacks a phone or an e-mail. */
  datatype WorkItem = WorkItem(row: int, name: string, url: string, needsPhone: bool, needsEmail: bool)

  /** The last sheet row read: start+limit-1 in test mode (a non-zero limit), otherwise row 250. */
  function EndRow(startRow: int, limit: Option<int>): (r: int)
    ensures limit.Some? && limit.value > 0 ==> r - startRow + 1 == limit.value
    ensures limit.None? || limit.value == 0 ==> r == 250
  {
    if limit.Some? && limit.value != 0 then startRow + limit.value - 1 else 250
  }

  /** A row padded with empty cells to five columns. */
  function Padded(row: seq<string>): (r: seq<string>)
    ensures |r| >= 5 && |r| >= |row| && r[..|row|] == row
    ensures forall j :: |row| <= j < |r| ==> r[j] == ""
    decreases 5 - |row|
  {
    if |row| < 5 then Padded(row + [""]) else row
  }

  /** A contact cell still needs scraping when it is empty or says "to look up". */
  predicate Needs(cell: string)
  {
    cell == "" || cell == "待查"
  }

  /** The work item a sheet row yields, if any. */
  function ItemOf(row: seq<string>, rowNumber: int): (r: Option<WorkItem>)
  {
    var cells := Padded(row);
    var name := Strip(cells[0]);
    var phone := Strip(cells[1]);
    var email := Strip(cells[2]);
    var company104 := Strip(cells[4]);
    if name == "" then None
    else if company104 == "" || !StartsWith(company104, "http") then None
    else if Needs(phone) || Needs(email) then Some(WorkItem(rowNumber, name, company104, Needs(phone), Needs(email)))
    else None
  }

  /** What f yields for each row, in row order; the row number counts every row, yielding or not. */
  function Collect<T>(rows: seq<seq<string>>, startRow: int, f: (seq<string>, int) -> Option<T>): seq<T>
  {
    if rows == [] then []
    else
      var n := |rows| - 1;
      var item := f(rows[n], startRow + n);
      Collect(rows[..n], startRow, f) + (if item.Some? then [item.value] else [])
  }

  /** The work items of the fetched rows. */
  function WorkList(rows: seq<seq<string>>, startRow: int): seq<WorkItem>
  {
    Collect(rows, startRow, ItemOf)
  }

  /** A work item worth scraping. */
  predicate Eligible(w: WorkItem)
  {
    w.name != "" && StartsWith(w.url, "http") && (w.needsPhone || w.needsEmail)
  }

  /** A row's item, if any, is eligible and carries the row number it was given. */
  lemma ItemOfEligible(row: seq<string>, rowNumber: int)
    ensures ItemOf(row, rowNumber).Some? ==> Eligible(ItemOf(row, rowNumber).value) && ItemOf(row, rowNumber).value.row == rowNumber
  {
  }

  /** Reading one more row appends that row's item, if any. */
  lemma CollectStep<T>(rows: seq<seq<string>>, startRow: int, f: (seq<string>, int) -> Option<T>, idx: nat)
    requires idx < |rows|
    ensures Collect(rows[..idx + 1], startRow, f) == Collect(rows[..idx], startRow, f)
      + (if f(rows[idx], startRow + idx).Some? then [f(rows[idx], startRow + idx).value] else [])
  {
    assert rows[..idx + 1][..idx] == rows[..idx];
  }

  /** Everything collected satisfies what f promises of its items, and its row lies in range; rows go strictly up. */
  lemma {:induction false} CollectShape(rows: seq<seq<string>>, startRow: int, f: (seq<string>, int) -> Option<WorkItem>)
    requires forall row, n :: f(row, n).Some? ==> Eligible(f(row, n).value) && f(row, n).value.row == n
    ensures var ws := Collect(rows, startRow, f);
      |ws| <= |rows|
      && (forall j :: 0 <= j < |ws| ==> Eligible(ws[j]) && startRow <= ws[j].row < startRow + |rows|)
      && (forall j, k :: 0 <= j < k < |ws| ==> ws[j].row < ws[k].row)
  {
    if rows != [] {
      CollectShape(rows[..|rows| - 1], startRow, f);
    }
  }

  /** Each row's item is collected. */
  lemma {:induction false} CollectComplete<T>(rows: seq<seq<string>>, startRow: int, f: (seq<string>, int) -> Option<T>, idx: nat)
    requires idx < |rows| && f(rows[idx], startRow + idx).Some?
    ensures f(rows[idx], startRow + idx).value in Collect(rows, startRow, f)
  {
    var n := |rows| - 1;
    if idx < n {
      assert rows[..n][idx] == rows[idx];
      CollectComplete(rows[..n], startRow, f, idx);
    }
  }

  /** Every item is eligible and its row lies in the fetched range; rows go strictly up, so none repeats. */
  lemma WorkListShape(rows: seq<seq<string>>, startRow: int)
    ensures var ws := WorkList(rows, startRow);
      |ws| <= |rows|
      && (forall j :: 0 <= j < |ws| ==> Eligible(ws[j]) && startRow <= ws[j].row < startRow + |rows|)
      && (forall j, k :: 0 <= j < k < |ws| ==> ws[j].row < ws[k].row)
  {
    forall row, n | ItemOf(row, n).Some? ensures Eligible(ItemOf(row, n).value) && ItemOf(row, n).value.row == n {
      ItemOfEligible(row, n);
    }
    CollectShape(rows, startRow, ItemOf);
  }

  /** Each row's item is in the list, with its place in the fetched range as its row number. */
  lemma WorkListComplete(rows: seq<seq<string>>, startRow: int, idx: nat)
    requires idx < |rows| && ItemOf(rows[idx], startRow + idx).Some?
    ensures ItemOf(rows[idx], startRow + idx).value in WorkList(rows, startRow)
  {
    CollectComplete(rows, startRow, ItemOf, idx);
  }

  /** A field is needed exactly when its trimmed cell is empty or says "to look up". */
  lemma ItemNeeds(row: seq<string>, rowNumber: int)
    requires ItemOf(row, rowNumber).Some?
    ensures var w := ItemOf(row, rowNumber).value; var cells := Padded(row);
      w.needsPhone == Needs(Strip(cells[1])) && w.needsEmail == Needs(Strip(cells[2]))
      && w.name == Strip(cells[0]) && w.url == Strip(cells[4]) && w.row == rowNumber
  {
  }

  /** Reads the rows of the range and keeps the companies that still need a phone or an e-mail.
      A failed read (an error status or output that does not parse) gives no companies. */
  method GetCompaniesFromSheets(fetched: Option<seq<seq<string>>>, startRow: int) returns (companies: seq<WorkItem>)
    ensures fetched.None? ==> companies == []
    ensures fetched.Some? ==> companies == WorkList(fetched.value, startRow)
  {
    companies := [];
    if fetched.None? {
      return;
    }
    var rows := fetched.value;
    var idx := 0;
    while idx < |rows|
      invariant 0 <= idx <= |rows|
      invariant companies == WorkList(rows[..idx], startRow)
    {
      var row := rows[idx];
      while |row| < 5
        invariant Padded(row) == Padded(rows[idx])
        decreases 5 - |row|
      {
        row := row + [""];
      }
      ghost var item := ItemOf(rows[idx], startRow + idx);
      assert item == ItemOf(row, startRow + idx) by {
        assert Padded(row) == row;
      }
      CollectStep(rows, startRow, ItemOf, idx);
      var companyName := Strip(row[0]);
      var phone := Strip(row[1]);
      var email := Strip(row[2]);
      var company104 := Strip(row[4]);
      if companyName == "" {
        idx := idx + 1;
        continue;
      }
      if company104 == "" || !StartsWith(company104, "http") {
        idx := idx + 1;
        continue;
      }
      var needsPhone := phone == "" || phone == "待查";
      var needsEmail := email == "" || email == "待查";
      if needsPhone || needsEmail {
        companies := companies + [WorkItem(startRow + idx, companyName, company104, needsPhone, needsEmail)];
      }
      idx := idx + 1;
    }
    assert rows[..|rows|] == rows;
  }

  /** Resume after the last processed row; a fresh run starts below the header, at row 2. */
  function ResumeRow(lastRow: int): (r: int)
    ensures r >= 2 && r > lastRow
    ensures lastRow > 1 ==> r == lastRow + 1
  {
    if lastRow > 1 then lastRow + 1 else 2
  }

  /** What the run is given in place of the browser, the sheet and the clock, item by item. */
  datatype Env = Env(
    retryTimes: int,
    attempts: nat -> nat -> Scraper.RunResult,
    cellOk: nat -> nat -> bool,
    raises: nat -> bool,
    clock: nat -> int,
    today: string,
    interval: int)

  /** Whether item i counts as a success, and the data recorded with it. */
  function Outcome(env: Env, i: nat): (bool, Option<Utils.CompanyData>)
  {
    var data := Scraper.Scraped(env.retryTimes, env.attempts(i));
    if data.Some? then (Scraper.AllWritten(Scraper.WritePlan(data.value, env.today), env.cellOk(i)), data)
    else (false, None)
  }

  /** Item i's outcome, for every i. */
  function Outcomes(env: Env): nat -> (bool, Option<Utils.CompanyData>)
  {
    (i: nat) => Outcome(env, i)
  }

  /** The checkpoint after item i, whose outcome `outs` gives: an unexpected error records a failure and
      skips the save check; otherwise the outcome is recorded and the record is stamped when a save is due. */
  function Step(s: Checkpoint.State, env: Env, outs: nat -> (bool, Option<Utils.CompanyData>), w: WorkItem, i: nat): Checkpoint.State
    requires env.interval != 0
  {
    if env.raises(i) then Checkpoint.Updated(s, w.row, w.name, false, None, env.clock(i))
    else
      var o := outs(i);
      var s1 := Checkpoint.Updated(s, w.row, w.name, o.0, o.1, env.clock(i));
      if s1.totalProcessed % env.interval == 0 then s1.(lastUpdate := env.clock(i)) else s1
  }

  function AfterItem(s: Checkpoint.State, env: Env, w: WorkItem, i: nat): Checkpoint.State
    requires env.interval != 0
  {
    Step(s, env, Outcomes(env), w, i)
  }

  /** The checkpoint after the first n items. */
  function Steps(s: Checkpoint.State, env: Env, outs: nat -> (bool, Option<Utils.CompanyData>), items: seq<WorkItem>, n: nat): Checkpoint.State
    requires env.interval != 0 && n <= |items|
  {
    if n == 0 then s else Step(Steps(s, env, outs, items, n - 1), env, outs, items[n - 1], n - 1)
  }

  function AfterItems(s: Checkpoint.State, env: Env, items: seq<WorkItem>, n: nat): Checkpoint.State
    requires env.interval != 0 && n <= |items|
  {
    Steps(s, env, Outcomes(env), items, n)
  }

  lemma AfterItemsNext(s: Checkpoint.State, env: Env, items: seq<WorkItem>, i: nat)
    requires env.interval != 0 && i < |items|
    ensures AfterItems(s, env, items, i + 1) == AfterItem(AfterItems(s, env, items, i), env, items[i], i)
  {
  }

  /** How many of the first n items succeed: those that did not raise and whose outcome is a success. */
  function Successes(env: Env, outs: nat -> (bool, Option<Utils.CompanyData>), n: nat): nat
  {
    if n == 0 then 0 else Successes(env, outs, n - 1) + (if !env.raises(n - 1) && outs(n - 1).0 then 1 else 0)
  }

  function SuccessCount(env: Env, n: nat): nat
  {
    Successes(env, Outcomes(env), n)
  }

  /** One item counts one company, keeps consistent counters consistent, and adds its success. */
  lemma StepCounts(s: Checkpoint.State, env: Env, outs: nat -> (bool, Option<Utils.CompanyData>), w: WorkItem, i: nat)
    requires env.interval != 0
    ensures var t := Step(s, env, outs, w, i);
      t.totalProcessed == s.totalProcessed + 1
      && (Checkpoint.Consistent(s) ==> Checkpoint.Consistent(t))
      && t.totalSuccess == s.totalSuccess + (if !env.raises(i) && outs(i).0 then 1 else 0)
      && t.startTime == s.startTime
  {
  }

  lemma {:induction false} StepsCounts(s: Checkpoint.State, env: Env, outs: nat -> (bool, Option<Utils.CompanyData>), items: seq<WorkItem>, n: nat)
    requires env.interval != 0 && n <= |items|
    ensures var t := Steps(s, env, outs, items, n);
      t.totalProcessed == s.totalProcessed + n
      && (Checkpoint.Consistent(s) ==> Checkpoint.Consistent(t))
      && t.totalSuccess == s.totalSuccess + Successes(env, outs, n)
      && t.startTime == s.startTime
  {
    if n > 0 {
      var prev := Steps(s, env, outs, items, n - 1);
      StepsCounts(s, env, outs, items, n - 1);
      StepCounts(prev, env, outs, items[n - 1], n - 1);
      assert Steps(s, env, outs, items, n) == Step(prev, env, outs, items[n - 1], n - 1);
    }
  }

  /** Processing n items counts n companies and, from consistent counters, keeps them consistent;
      successes are exactly the items whose scrape returned data and whose cells were all written. */
  lemma AfterItemsCounts(s: Checkpoint.State, env: Env, items: seq<WorkItem>, n: nat)
    requires env.interval != 0 && n <= |items|
    ensures var t := AfterItems(s, env, items, n);
      t.totalProcessed == s.totalProcessed + n
      && (Checkpoint.Consistent(s) ==> Checkpoint.Consistent(t))
      && t.totalSuccess == s.totalSuccess + SuccessCount(env, n)
      && t.startTime == s.startTime
  {
    StepsCounts(s, env, Outcomes(env), items, n);
  }

  /** One pass of the loop body, without interruption. */
  method ProcessOne(cp: Checkpoint.CheckpointManager, company: WorkItem, env: Env, i: nat)
    requires env.interval != 0
    modifies cp
    ensures cp.data == AfterItem(old(cp.data), env, company, i)
  {
    if env.raises(i) {
      cp.UpdateProgress(company.row, company.name, false, None, env.clock(i));
      return;
    }
    var data, _, _ := Scraper.ScrapeCompany(env.retryTimes, env.attempts(i));
    if data.Some? {
      var success, _ := Scraper.UpdateGoogleSheets(data.value, env.today, env.cellOk(i));
      cp.UpdateProgress(company.row, company.name, success, data, env.clock(i));
    } else {
      cp.UpdateProgress(company.row, company.name, false, None, env.clock(i));
    }
    Checkpoint.DividesMod(env.interval, cp.data.totalProcessed);
    if cp.ShouldSave(env.interval) {
      cp.Save(env.clock(i));
    }
  }

  /** Scrapes, writes and records each item in turn; a keyboard interrupt before item k saves and stops
      with that item unrecorded; the checkpoint is saved once more after the last item. */
  method ProcessAll(cp: Checkpoint.CheckpointManager, companies: seq<WorkItem>, env: Env, interruptAt: Option<nat>, endClock: int)
    returns (processed: nat, interrupted: bool)
    requires env.interval != 0
    modifies cp
    ensures interrupted <==> interruptAt.Some? && interruptAt.value < |companies|
    ensures processed == if interrupted then interruptAt.value else |companies|
    ensures cp.data == AfterItems(old(cp.data), env, companies, processed).(lastUpdate := endClock)
    ensures cp.file == Some(cp.data)
  {
    var i: nat := 0;
    while i < |companies|
      invariant i <= |companies|
      invariant interruptAt.Some? && interruptAt.value < |companies| ==> i <= interruptAt.value
      invariant cp.data == AfterItems(old(cp.data), env, companies, i)
    {
      if interruptAt == Some(i) {
        cp.Save(endClock);
        return i, true;
      }
      AfterItemsNext(old(cp.data), env, companies, i);
      ProcessOne(cp, companies[i], env, i);
      i := i + 1;
    }
    cp.Save(endClock);
    return |companies|, false;
  }

  /** One run: load or reset the checkpoint, resume after its last row, read the sheet, process every item.
      With no work nothing is saved; an interrupted run lists no failures. */
  method RunCrawler(stored: Option<Checkpoint.State>, reset: bool, test: Option<int>,
              fetchRange: (int, int) -> Option<seq<seq<string>>>, env: Env, interruptAt: Option<nat>,
              startClock: int, endClock: int)
    returns (cp: Checkpoint.CheckpointManager, companies: seq<WorkItem>, processed: nat, failedList: Option<seq<Checkpoint.Entry>>)
    requires env.interval != 0
    ensures var s0 := if stored.Some? && !reset then stored.value else Checkpoint.Fresh(startClock);
      var start := ResumeRow(Checkpoint.LastRowOf(s0));
      var fetched := fetchRange(start, EndRow(start, test));
      companies == (if fetched.Some? then WorkList(fetched.value, start) else [])
      && processed <= |companies|
      && (companies == [] ==> processed == 0 && cp.data == s0 && failedList.None?)
      && (companies != [] ==> cp.data == AfterItems(s0, env, companies, processed).(lastUpdate := endClock) && cp.file == Some(cp.data))
      && (failedList.Some? ==> processed == |companies| && failedList.value == cp.data.failedCompanies)
      && (interruptAt.None? && companies != [] ==> failedList.Some?)
  {
    cp := new Checkpoint.CheckpointManager(stored, startClock);
    if reset {
      cp.Reset(startClock);
    }
    var startRow := ResumeRow(cp.GetLastRow());
    companies := GetCompaniesFromSheets(fetchRange(startRow, EndRow(startRow, test)), startRow);
    if companies == [] {
      return cp, companies, 0, None;
    }
    var interrupted;
    processed, interrupted := ProcessAll(cp, companies, env, interruptAt, endClock);
    failedList := if interrupted then None else Some(cp.GetFailedCompanies());
  }
}
