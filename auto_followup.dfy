// The follow-up scheduler (skills/headhunter/scripts/auto-followup.py). The follow-up file is the
// store's list; the clock is a parameter, dates are day numbers (comparing the YYYY-MM-DD strings
// is comparing the days) and creation and completion stamps are plain integers.
module AutoFollowup {
  import opened Wrappers
  import Text
  import Seqs

  /** One follow-up reminder as stored in the file. */
  datatype Followup = Followup(
    id: string,
    candidateId: string,
    candidateName: string,
    clientName: string,
    status: string,
    days: nat,
    dueDate: int,
    message: string,
    completed: bool,
    createdAt: int,
    notes: Option<string>,
    completedAt: Option<int>,
    completionNotes: Option<string>)

  /** A follow-up rule: the day offsets and the message template, cut at its three placeholders. */
  datatype Rule = Rule(description: string, intervals: seq<nat>, lead: string, beforeClient: string, beforeDays: string, tail: string)

  /** FOLLOWUP_RULES: the statuses that have follow-ups and their rules. */
  function RuleFor(status: string): (r: Option<Rule>)
    ensures r.Some? ==> r.value.intervals != [] && |r.value.intervals| <= 4
  {
    if status == "recommended" then Some(Rule("推薦後跟進", [3, 7, 14], "📋 ", " 推薦給 ", " 已 ", " 天，需要跟進客戶反饋"))
    else if status == "interview" then Some(Rule("面試後跟進", [1, 3], "🎤 ", " 面試 ", " 已 ", " 天，需要確認結果"))
    else if status == "offer" then Some(Rule("Offer 跟進", [1, 2, 3], "💰 ", " 收到 ", " Offer 已 ", " 天，確認接受狀況"))
    else if status == "placed" then Some(Rule("報到後關懷", [1, 7, 30, 90], "✅ ", " 在 ", " 報到已 ", " 天，進行關懷追蹤"))
    else None
  }

  /** The template filled with the candidate, the client and the day offset. */
  function Message(rule: Rule, candidate: string, client: string, days: nat): string
  {
    rule.lead + candidate + rule.beforeClient + client + rule.beforeDays + Text.NatToString(days) + rule.tail
  }

  /** "FU-%04d". */
  function FollowupId(n: nat): string
  {
    "FU-" + Text.ZeroPad(n, 4)
  }

  /** Every entry carries the id of its position: the k-th follow-up ever scheduled is FU-k. */
  predicate Numbered(fs: seq<Followup>)
  {
    forall k :: 0 <= k < |fs| ==> fs[k].id == FollowupId(k + 1)
  }

  /** Numbered ids never repeat. */
  lemma NumberedUnique(fs: seq<Followup>)
    requires Numbered(fs)
    ensures forall i, j :: 0 <= i < j < |fs| ==> fs[i].id != fs[j].id
  {
    forall i, j | 0 <= i < j < |fs|
      ensures fs[i].id != fs[j].id
    {
      if fs[i].id == fs[j].id {
        assert Text.ZeroPad(i + 1, 4) == fs[i].id[3..] && Text.ZeroPad(j + 1, 4) == fs[j].id[3..];
        Text.ZeroPadInjective(i + 1, j + 1, 4);
      }
    }
  }

  /** Two numbered lists whose second continues the first's numbering join into a numbered list. */
  lemma NumberedAppend(fs: seq<Followup>, more: seq<Followup>)
    requires Numbered(fs)
    requires forall k :: 0 <= k < |more| ==> more[k].id == FollowupId(|fs| + k + 1)
    ensures Numbered(fs + more)
  {
  }

  /** Appending follow-ups numbered on from the end keeps a numbered list numbered. */
  lemma AppendNumbered(fs: seq<Followup>, more: seq<Followup>)
    requires forall k :: 0 <= k < |more| ==> more[k].id == FollowupId(|fs| + k + 1)
    ensures Numbered(fs) ==> Numbered(fs + more)
  {
    if Numbered(fs) {
      NumberedAppend(fs, more);
    }
  }

  /** The k-th follow-up of a scheduling call: its number, its offset from the start and its message. */
  predicate PlannedAs(f: Followup, n: nat, days: nat, start: int, rule: Rule, candidateId: string, candidateName: string,
                      clientName: string, status: string, notes: Option<string>, now: int)
  {
    f.id == FollowupId(n) && f.days == days && f.dueDate == start + days
    && !f.completed && f.status == status && f.candidateId == candidateId && f.candidateName == candidateName
    && f.clientName == clientName && f.createdAt == now && f.notes == notes
    && f.message == Message(rule, candidateName, clientName, days)
    && f.completedAt.None? && f.completionNotes.None?
  }

  // ---------------------------------------------------------------- queries

  predicate IsDue(today: int, f: Followup) { f.dueDate <= today && !f.completed }

  function DueOn(today: int): Followup -> bool { (f: Followup) => IsDue(today, f) }

  /** get_due_today: the open follow-ups due today or earlier, in file order. */
  function DueToday(fs: seq<Followup>, today: int): (r: seq<Followup>)
    ensures forall f :: f in r <==> f in fs && f.dueDate <= today && !f.completed
  {
    Seqs.Filter(fs, DueOn(today))
  }

  function Within(today: int, days: int): Followup -> bool
  {
    (f: Followup) => today <= f.dueDate <= today + days && !f.completed
  }

  function DueDateOf(f: Followup): int { f.dueDate }

  /** get_upcoming: the open follow-ups due from today to `days` days ahead, sorted stably by due date. */
  function Upcoming(fs: seq<Followup>, today: int, days: int): (r: seq<Followup>)
    ensures forall f :: f in r <==> f in fs && today <= f.dueDate <= today + days && !f.completed
    ensures Seqs.SortedBy(r, DueDateOf)
  {
    Seqs.SortBySorted(Seqs.Filter(fs, Within(today, days)), DueDateOf);
    Seqs.SortBy(Seqs.Filter(fs, Within(today, days)), DueDateOf)
  }

  /** Follow-ups due on the same day keep their file order. */
  lemma UpcomingStable(fs: seq<Followup>, today: int, days: int, day: int)
    ensures Seqs.WithKey(Upcoming(fs, today, days), DueDateOf, day)
         == Seqs.WithKey(Seqs.Filter(fs, Within(today, days)), DueDateOf, day)
  {
    Seqs.SortByStable(Seqs.Filter(fs, Within(today, days)), DueDateOf, day);
  }

  /** The index of the first follow-up with the id, if any. */
  function FirstWithId(fs: seq<Followup>, id: string): (r: Option<nat>)
    ensures r.Some? ==>
              r.value < |fs| && fs[r.value].id == id
              && forall j :: 0 <= j < r.value ==> fs[j].id != id
    ensures r.None? ==> forall j :: 0 <= j < |fs| ==> fs[j].id != id
  {
    Seqs.FirstWith(fs, (f: Followup) => f.id, id)
  }

  /** A follow-up marked done; empty or missing notes keep the old completion notes. */
  function Completed(f: Followup, notes: Option<string>, now: int): (r: Followup)
    ensures r.completed && r.completedAt == Some(now)
    ensures r.(completed := f.completed, completedAt := f.completedAt, completionNotes := f.completionNotes) == f
  {
    f.(completed := true, completedAt := Some(now),
       completionNotes := if notes.Some? && notes.value != "" then notes else f.completionNotes)
  }

  /** Completing an entry takes it off the due list and leaves the other entries' standing as it was. */
  lemma CompletedLeavesDue(fs: seq<Followup>, k: nat, notes: Option<string>, now: int, today: int)
    requires k < |fs|
    ensures Seqs.Count(fs[k := Completed(fs[k], notes, now)], DueOn(today))
         == Seqs.Count(fs, DueOn(today)) - (if IsDue(today, fs[k]) then 1 else 0)
  {
    Seqs.CountUpdate(fs, k, Completed(fs[k], notes, now), DueOn(today));
  }

  /** What the daily reminder reports: the due list, at most five later entries and how many more there are. */
  datatype Reminder = Reminder(due: seq<Followup>, shown: seq<Followup>, more: nat)

  /** The upcoming entries of the next week that fall after today. */
  function Future(fs: seq<Followup>, today: int): (r: seq<Followup>)
    ensures forall f :: f in r <==> f in fs && today < f.dueDate <= today + 7 && !f.completed
  {
    Seqs.Filter(Upcoming(fs, today, 7), (f: Followup) => f.dueDate > today)
  }

  function DailyReminder(fs: seq<Followup>, today: int): Reminder
  {
    var future := Future(fs, today);
    var shown := if |future| <= 5 then future else future[..5];
    Reminder(DueToday(fs, today), shown, |future| - |shown|)
  }

  /** At most five later entries are listed, the first ones of the week; the rest are only counted. */
  lemma DailyReminderTruncates(fs: seq<Followup>, today: int)
    ensures var r := DailyReminder(fs, today);
      var future := Future(fs, today);
      |r.shown| <= 5 && |r.shown| + r.more == |future|
      && r.shown == future[..|r.shown|]
      && (r.more > 0 ==> |r.shown| == 5)
      && (forall f :: f in r.shown ==> today < f.dueDate <= today + 7 && !f.completed)
  {
    var future := Future(fs, today);
    assert forall f :: f in future[..|DailyReminder(fs, today).shown|] ==> f in future;
  }

  /** The loop of schedule_followup: one follow-up per interval, numbered on from `count`. */
  method Plan(rule: Rule, count: nat, start: int, candidateId: string, candidateName: string, clientName: string,
              status: string, notes: Option<string>, now: int)
    returns (scheduled: seq<Followup>)
    ensures |scheduled| == |rule.intervals|
    ensures forall k :: 0 <= k < |scheduled| ==> scheduled[k].id == FollowupId(count + k + 1)
    ensures forall k :: 0 <= k < |scheduled| ==>
      PlannedAs(scheduled[k], count + k + 1, rule.intervals[k], start, rule, candidateId, candidateName, clientName,
                status, notes, now)
  {
    scheduled := [];
    for i := 0 to |rule.intervals|
      invariant |scheduled| == i
      invariant forall k :: 0 <= k < i ==>
        PlannedAs(scheduled[k], count + k + 1, rule.intervals[k], start, rule, candidateId, candidateName, clientName,
                  status, notes, now)
    {
      var days := rule.intervals[i];
      var f := Followup(FollowupId(count + |scheduled| + 1), candidateId, candidateName, clientName, status,
                        days, start + days, Message(rule, candidateName, clientName, days), false, now, notes, None, None);
      scheduled := scheduled + [f];
    }
  }

  // ---------------------------------------------------------------- the store

  class Store {
    /** The contents of the follow-up file. */
    var followups: seq<Followup>

    /** Loads the file; a missing or unreadable file is an empty list. */
    constructor (stored: Option<seq<Followup>>)
      ensures followups == stored.GetOr([])
    {
      followups := stored.GetOr([]);
    }

    /**
     * schedule_followup: one open follow-up per interval of the status's rule, due that many days
     * after the start (today when none is given), numbered on from the file's length and appended.
     */
    method ScheduleFollowup(candidateId: string, candidateName: string, clientName: string, status: string,
                            startDate: Option<int>, notes: Option<string>, today: int, now: int)
      returns (scheduled: seq<Followup>)
      modifies this
      ensures RuleFor(status).None? ==> scheduled == [] && followups == old(followups)
      ensures followups == old(followups) + scheduled
      ensures RuleFor(status).Some? ==>
                var rule := RuleFor(status).value;
                |scheduled| == |rule.intervals|
                && forall k :: 0 <= k < |scheduled| ==>
                     PlannedAs(scheduled[k], |old(followups)| + k + 1, rule.intervals[k], startDate.GetOr(today),
                               rule, candidateId, candidateName, clientName, status, notes, now)
      ensures old(Numbered(followups)) ==> Numbered(followups)
    {
      var rule := RuleFor(status);
      if rule.None? {
        return [];
      }
      scheduled := Plan(rule.value, |followups|, startDate.GetOr(today), candidateId, candidateName, clientName,
                        status, notes, now);
      AppendNumbered(followups, scheduled);
      followups := followups + scheduled;
    }

    /**
     * complete_followup: marks the first follow-up with the id as done and returns it; an unknown
     * id changes nothing and returns None.
     */
    method CompleteFollowup(id: string, notes: Option<string>, now: int) returns (r: Option<Followup>)
      modifies this
      ensures FirstWithId(old(followups), id).None? ==> r.None? && followups == old(followups)
      ensures FirstWithId(old(followups), id).Some? ==>
        var k := FirstWithId(old(followups), id).value;
        followups == old(followups)[k := Completed(old(followups)[k], notes, now)] && r == Some(followups[k])
    {
      var i := 0;
      while i < |followups|
        invariant 0 <= i <= |followups| && followups == old(followups)
        invariant forall j :: 0 <= j < i ==> followups[j].id != id
      {
        if followups[i].id == id {
          var done := Completed(followups[i], notes, now);
          followups := followups[i := done];
          return Some(done);
        }
        i := i + 1;
      }
      return None;
    }
  }
}
