// Fetching with retries and writing back to the sheet (crawlers/scraper-stable/scraper.py).
// Each run of the browser command and each cell write is an outcome the caller supplies; the
// sleeps are counted rather than performed.
module Scraper {
  import opened Wrappers
  import Utils

  /** How one run of the page-snapshot command ended. */
  datatype RunResult =
    | Exited(returnCode: int, stdout: string)
    | TimedOut
    | Crashed

  /** The snapshot is kept only from a run that exits with status 0 and prints at least 100 characters. */
  function Fetch104Page(run: RunResult): (r: Option<string>)
    ensures r.Some? <==> run.Exited? && run.returnCode == 0 && |run.stdout| >= 100
    ensures r.Some? ==> r.value == run.stdout && r.value != ""
  {
    match run
    case Exited(code, out) => if code != 0 then None else if out == "" || |out| < 100 then None else Some(out)
    case TimedOut => None
    case Crashed => None
  }

  predicate Accepted(run: RunResult)
  {
    Fetch104Page(run).Some?
  }

  /** The first attempt in from..last whose run yields a snapshot. */
  function FirstAccepted(attempt: nat -> RunResult, from: nat, last: int): (r: Option<nat>)
    decreases last - from + 1
    ensures r.Some? ==> from <= r.value <= last && Accepted(attempt(r.value))
    ensures r.Some? ==> forall j :: from <= j < r.value ==> !Accepted(attempt(j))
    ensures r.None? ==> forall j :: from <= j <= last ==> !Accepted(attempt(j))
  {
    if last < from then None
    else if Accepted(attempt(from)) then Some(from)
    else FirstAccepted(attempt, from + 1, last)
  }

  /** What the retry loop returns: the parsed first snapshot, or nothing when every attempt fails. */
  function Scraped(retryTimes: int, attempt: nat -> RunResult): Option<Utils.CompanyData>
  {
    match FirstAccepted(attempt, 1, retryTimes)
    case Some(k) => Some(Utils.Parse104Snapshot(attempt(k).stdout))
    case None => None
  }

  /** The retry loop: attempts 1..retryTimes, sleeping only between two attempts; the first snapshot is
      parsed and returned whatever its quality. */
  method ScrapeCompany(retryTimes: int, attempt: nat -> RunResult) returns (data: Option<Utils.CompanyData>, fetches: nat, sleeps: nat)
    ensures data == Scraped(retryTimes, attempt)
    ensures data.Some? <==> FirstAccepted(attempt, 1, retryTimes).Some?
    ensures FirstAccepted(attempt, 1, retryTimes).Some? ==>
      var k := FirstAccepted(attempt, 1, retryTimes).value;
      fetches == k && data == Some(Utils.Parse104Snapshot(attempt(k).stdout))
    ensures data.None? ==> fetches == if retryTimes > 0 then retryTimes else 0
    ensures sleeps == if fetches == 0 then 0 else fetches - 1
  {
    data, fetches, sleeps := None, 0, 0;
    var k: nat := 1;
    while k <= retryTimes
      invariant 1 <= k && (retryTimes >= 1 ==> k <= retryTimes) && (retryTimes < 1 ==> k == 1)
      invariant fetches == k - 1 && sleeps == if k == 1 then 0 else k - 2 + 1
      invariant FirstAccepted(attempt, 1, retryTimes) == FirstAccepted(attempt, k, retryTimes)
      decreases retryTimes - k
    {
      fetches := fetches + 1;
      var snapshot := Fetch104Page(attempt(k));
      if snapshot.None? || snapshot.value == "" {
        if k < retryTimes {
          sleeps := sleeps + 1;
          k := k + 1;
          continue;
        }
        return;
      }
      data := Some(Utils.Parse104Snapshot(snapshot.value));
      return;
    }
  }

  /** Python truthiness of an optional field. */
  predicate Truthy(v: Option<string>)
  {
    v.Some? && v.value != ""
  }

  /** The data columns in the order the plan lists them. */
  function FieldColumns(d: Utils.CompanyData): seq<(char, Option<string>)>
  {
    [('B', d.phone), ('C', d.email), ('D', d.website), ('F', d.address), ('G', d.industry), ('H', d.services)]
  }

  predicate Ascending<T>(cells: seq<(char, T)>)
  {
    forall j, k :: 0 <= j < k < |cells| ==> cells[j].0 < cells[k].0
  }

  /** One cell per truthy field, in field order. */
  function Planned(fields: seq<(char, Option<string>)>): (r: seq<(char, string)>)
    ensures |r| <= |fields|
    ensures forall j :: 0 <= j < |r| ==> r[j].1 != ""
  {
    if fields == [] then []
    else if Truthy(fields[0].1) then [(fields[0].0, fields[0].1.value)] + Planned(fields[1..])
    else Planned(fields[1..])
  }

  /** Every planned cell comes from a truthy field with that column. */
  lemma {:induction false} PlannedSound(fields: seq<(char, Option<string>)>)
    ensures forall x :: x in Planned(fields) ==> (x.0, Some(x.1)) in fields
  {
    if fields != [] {
      PlannedSound(fields[1..]);
      assert forall x :: x in fields[1..] ==> x in fields;
    }
  }

  /** Every truthy field is planned. */
  lemma {:induction false} PlannedComplete(fields: seq<(char, Option<string>)>)
    ensures forall j :: 0 <= j < |fields| && Truthy(fields[j].1) ==> (fields[j].0, fields[j].1.value) in Planned(fields)
  {
    if fields != [] {
      PlannedComplete(fields[1..]);
      forall j | 1 <= j < |fields| && Truthy(fields[j].1) ensures (fields[j].0, fields[j].1.value) in Planned(fields) {
        assert fields[1..][j - 1] == fields[j];
      }
    }
  }

  /** Planning keeps the columns in order. */
  lemma {:induction false} PlannedAscending(fields: seq<(char, Option<string>)>)
    requires Ascending(fields)
    ensures Ascending(Planned(fields))
  {
    if fields != [] {
      PlannedAscending(fields[1..]);
      PlannedSound(fields[1..]);
      var rest := Planned(fields[1..]);
      forall j | 0 <= j < |rest| ensures fields[0].0 < rest[j].0 {
        var x := rest[j];
        assert x in rest;
        var i :| 0 <= i < |fields[1..]| && fields[1..][i] == (x.0, Some(x.1));
        assert fields[i + 1] == (x.0, Some(x.1));
      }
    }
  }

  /** Column I: someone to contact once a phone or an e-mail is known, else still to look up. */
  function Status(d: Utils.CompanyData): string
  {
    if Truthy(d.phone) || Truthy(d.email) then "待聯繫" else "待查"
  }

  /** The cells to write for one row: the truthy data fields, then status, date and owner. */
  function WritePlan(d: Utils.CompanyData, today: string): seq<(char, string)>
  {
    Planned(FieldColumns(d)) + [('I', Status(d)), ('J', today), ('K', "Jacky")]
  }

  /** Planned cells of columns up to 'H', followed by three fixed cells of later columns. */
  lemma PlanThenFixed(fs: seq<(char, Option<string>)>, fixed: seq<(char, string)>)
    requires Ascending(fs) && forall j :: 0 <= j < |fs| ==> fs[j].0 <= 'H'
    requires |fixed| == 3 && Ascending(fixed) && forall j :: 0 <= j < 3 ==> fixed[j].0 > 'H'
    ensures var r := Planned(fs) + fixed; var n := |r|;
      3 <= n <= |fs| + 3 && Ascending(r)
      && (forall j :: 0 <= j < n - 3 ==> r[j].1 != "" && (r[j].0, Some(r[j].1)) in fs)
      && (forall j :: 0 <= j < |fs| && Truthy(fs[j].1) ==> (fs[j].0, fs[j].1.value) in r[..n - 3])
  {
    var p := Planned(fs);
    var r := p + fixed;
    assert r[..|r| - 3] == p;
    assert forall j :: 0 <= j < |r| - 3 ==> r[j].1 != "" && (r[j].0, Some(r[j].1)) in fs by {
      PlannedSound(fs);
      forall j | 0 <= j < |r| - 3 ensures r[j].1 != "" && (r[j].0, Some(r[j].1)) in fs {
        assert r[j] == p[j] && p[j] in p;
      }
    }
    assert forall j :: 0 <= j < |fs| && Truthy(fs[j].1) ==> (fs[j].0, fs[j].1.value) in r[..|r| - 3] by {
      PlannedComplete(fs);
    }
    assert Ascending(r) by {
      PlannedAscending(fs);
      assert forall j :: 0 <= j < |p| ==> p[j].0 <= 'H' by {
        PlannedSound(fs);
        forall j | 0 <= j < |p| ensures p[j].0 <= 'H' {
          assert p[j] in p;
          var i :| 0 <= i < |fs| && fs[i] == (p[j].0, Some(p[j].1));
        }
      }
      forall j, k | 0 <= j < k < |r| ensures r[j].0 < r[k].0 {
        if k < |p| {
          assert r[j] == p[j] && r[k] == p[k];
        } else if j < |p| {
          assert r[j] == p[j] && r[k] == fixed[k - |p|];
        } else {
          assert r[j] == fixed[j - |p|] && r[k] == fixed[k - |p|];
        }
      }
    }
  }

  /** The plan is never empty and ends with status, date and owner; before them come exactly the truthy
      fields, each once, in column order. */
  lemma WritePlanShape(d: Utils.CompanyData, today: string)
    ensures var r := WritePlan(d, today); var n := |r|;
      3 <= n <= 9 && r[n - 3] == ('I', Status(d)) && r[n - 2] == ('J', today) && r[n - 1] == ('K', "Jacky")
      && Ascending(r)
      && (forall j :: 0 <= j < n - 3 ==> r[j].1 != "" && (r[j].0, Some(r[j].1)) in FieldColumns(d))
      && (forall j :: 0 <= j < 6 && Truthy(FieldColumns(d)[j].1) ==> (FieldColumns(d)[j].0, FieldColumns(d)[j].1.value) in r[..n - 3])
  {
    var fs := FieldColumns(d);
    assert |fs| == 6;
    assert Ascending(fs);
    assert forall j :: 0 <= j < |fs| ==> fs[j].0 <= 'H';
    var fixed := [('I', Status(d)), ('J', today), ('K', "Jacky")];
    assert Ascending(fixed) && forall j :: 0 <= j < 3 ==> fixed[j].0 > 'H';
    PlanThenFixed(fs, fixed);
  }

  /** The status says "to contact" exactly when a phone or an e-mail was found. */
  lemma StatusIff(d: Utils.CompanyData)
    ensures Status(d) == "待聯繫" <==> Truthy(d.phone) || Truthy(d.email)
    ensures Status(d) != "待聯繫" ==> Status(d) == "待查"
  {
    assert "待查" != "待聯繫" by { assert "待查"[1] != "待聯繫"[1]; }
  }

  /** Every planned cell write succeeds. */
  predicate AllWritten(plan: seq<(char, string)>, cellOk: nat -> bool)
  {
    forall j :: 0 <= j < |plan| ==> cellOk(j)
  }

  /** Writes the planned cells in order and stops at the first one that fails. */
  method UpdateGoogleSheets(d: Utils.CompanyData, today: string, cellOk: nat -> bool) returns (ok: bool, written: nat)
    ensures written <= |WritePlan(d, today)|
    ensures ok <==> AllWritten(WritePlan(d, today), cellOk)
    ensures ok ==> written == |WritePlan(d, today)|
    ensures !ok ==> written < |WritePlan(d, today)| && !cellOk(written)
    ensures forall j :: 0 <= j < written ==> cellOk(j)
  {
    var updates := WritePlan(d, today);
    written := 0;
    while written < |updates|
      invariant written <= |updates|
      invariant forall j :: 0 <= j < written ==> cellOk(j)
    {
      if !cellOk(written) {
        return false, written;
      }
      written := written + 1;
    }
    ok := true;
  }
}
