// What updated_at says, and what a sweeper makes of it.
module Staleness {
  import opened Models
  import opened Tables
  import opened Lifecycle
  import opened Ownership
  import opened Theorems
  import opened Script

  // Event k makes the row of `id` or changes it.
  predicate Changes(ss: seq<State>, k: nat, id: JobId)
    requires k + 1 < |ss|
  {
    id in ss[k + 1].db && (id !in ss[k].db || ss[k + 1].db[id] != ss[k].db[id])
  }

  lemma ChangeStamps(c: Config, s: State, ev: Event, id: JobId)
    requires Base(c, s) && Enabled(c, s, ev) && id in Fire(c, s, ev).db
    ensures (id in s.db && Fire(c, s, ev).db[id] == s.db[id]) || Fire(c, s, ev).db[id].updatedAt == s.now
  {
    StepTable(c, s, ev);
  }

  lemma ClockStep(c: Config, s: State, ev: Event)
    requires Enabled(c, s, ev)
    ensures s.now <= Fire(c, s, ev).now
  {
  }

  lemma {:induction false} ClockForward(c: Config, ss: seq<State>, evs: seq<Event>, y: nat, k: nat)
    requires Run(c, ss, evs) && y <= k < |ss|
    ensures ss[y].now <= ss[k].now
    decreases k
  {
    if y < k {
      ClockForward(c, ss, evs, y, k - 1);
      ClockStep(c, ss[k - 1], evs[k - 1]);
    }
  }

  // A row's updated_at is no earlier than any change of the row: every write stamps it.
  lemma {:induction false} StampedSince(c: Config, ss: seq<State>, evs: seq<Event>, y: nat, k: nat, id: JobId)
    requires Run(c, ss, evs) && y < k < |ss| && Changes(ss, y, id)
    ensures id in ss[k].db && ss[k].db[id].updatedAt >= ss[y].now
    decreases k
  {
    RunSane(c, ss, evs, k - 1);
    if y + 1 < k {
      StampedSince(c, ss, evs, y, k - 1, id);
      StepKeepsJobs(c, ss[k - 1], evs[k - 1]);
      ClockForward(c, ss, evs, y, k - 1);
    }
    ChangeStamps(c, ss[k - 1], evs[k - 1], id);
  }

  // Scanner j listed exactly this row at event x.
  predicate ListedAt(ss: seq<State>, evs: seq<Event>, x: nat, j: nat, row: Row)
    requires x < |evs| && x < |ss|
  {
    && evs[x].Scan? && evs[x].k == j && evs[x].step.List? && evs[x].step.up && row in evs[x].step.rows
    && row.job.id in ss[x].db && ss[x].db[row.job.id] == row
  }

  ghost predicate Listed(ss: seq<State>, evs: seq<Event>, k: nat, j: nat, row: Row)
    requires k < |ss| == |evs| + 1
  {
    exists x: nat :: x < k && ListedAt(ss, evs, x, j, row)
  }

  ghost predicate TodoListed(ss: seq<State>, evs: seq<Event>, k: nat, j: nat)
    requires k < |ss| == |evs| + 1
  {
    j < |ss[k].scans| ==> forall row :: row in ss[k].scans[j].todo ==> Listed(ss, evs, k, j, row)
  }

  // The rows on a list are those of the list before, unless the scanner has just listed.
  lemma TodoShrinks(c: Config, s: State, ev: Event, j: nat, row: Row)
    requires Base(c, s) && Enabled(c, s, ev) && j < |Fire(c, s, ev).scans| && row in Fire(c, s, ev).scans[j].todo
    ensures (ev.Scan? && ev.k == j && ev.step.List? && ev.step.up)
         || (j < |s.scans| && row in s.scans[j].todo)
    ensures ev.Scan? && ev.k == j && ev.step.List? && ev.step.up ==>
      row in ev.step.rows && row.job.id in s.db && s.db[row.job.id] == row
  {
    if ev.Scan? { StepScanner(c, s, ev.k, ev.step); } else { OtherScanners(c, s, ev); }
  }

  lemma ListedOn(ss: seq<State>, evs: seq<Event>, k: nat, j: nat, row: Row)
    requires 0 < k < |ss| == |evs| + 1
    requires ListedAt(ss, evs, k - 1, j, row) || Listed(ss, evs, k - 1, j, row)
    ensures Listed(ss, evs, k, j, row)
  {
    if ListedAt(ss, evs, k - 1, j, row) {
    } else {
      var x: nat :| x < k - 1 && ListedAt(ss, evs, x, j, row);
    }
  }

  lemma TodoListedNext(c: Config, ss: seq<State>, evs: seq<Event>, k: nat, j: nat)
    requires 0 < k < |ss| == |evs| + 1 && Sane(c, ss[k - 1]) && TodoListed(ss, evs, k - 1, j)
    requires Enabled(c, ss[k - 1], evs[k - 1]) && ss[k] == Fire(c, ss[k - 1], evs[k - 1])
    ensures TodoListed(ss, evs, k, j)
  {
    if j < |ss[k].scans| {
      forall row | row in ss[k].scans[j].todo ensures Listed(ss, evs, k, j, row) {
        TodoShrinks(c, ss[k - 1], evs[k - 1], j, row);
        ListedOn(ss, evs, k, j, row);
      }
    }
  }

  lemma {:induction false} RunTodoListed(c: Config, ss: seq<State>, evs: seq<Event>, k: nat, j: nat)
    requires Run(c, ss, evs) && k < |ss|
    ensures TodoListed(ss, evs, k, j)
  {
    if k > 0 {
      RunTodoListed(c, ss, evs, k - 1, j);
      RunSane(c, ss, evs, k - 1);
      TodoListedNext(c, ss, evs, k, j);
    }
  }

  // Up to its listing at x nothing has changed the row within ten minutes of time `now`.
  ghost predicate Idle(ss: seq<State>, x: nat, id: JobId, now: Time)
    requires x < |ss|
  {
    forall y: nat :: y < x && Changes(ss, y, id) ==> now - ss[y].now > 600_000_000_000
  }

  // A sweeper picks up a job listed as processing only if, up to the listing, no statement
  // had touched its row in the ten minutes before the pick: a job at work is left alone.
  lemma SweepsOnlyTheIdle(c: Config, ss: seq<State>, evs: seq<Event>, k: nat, j: nat, up: bool)
    requires Run(c, ss, evs) && k < |evs| && evs[k] == Scan(j, Pick(up)) && j != STARTUP
    requires var row := ss[k].scans[j].todo[0]; row.status == Processing && ss[k + 1].scans[j].hand == Some(row.job)
    ensures var row := ss[k].scans[j].todo[0];
            exists x: nat :: x < k && ListedAt(ss, evs, x, j, row) && Idle(ss, x, row.job.id, ss[k].now)
  {
    RunSane(c, ss, evs, k);
    ScannerStory(c, ss, evs, k);
    RunTodoListed(c, ss, evs, k, j);
    var row := ss[k].scans[j].todo[0];
    assert ScannerOk(ss[k].db, ss[k].scans[j]);
    assert row in ss[k].scans[j].todo;
    var x: nat :| x < k && ListedAt(ss, evs, x, j, row);
    forall y: nat | y < x && Changes(ss, y, row.job.id) ensures ss[k].now - ss[y].now > 600_000_000_000 {
      StampedSince(c, ss, evs, y, x, row.job.id);
    }
    assert ListedAt(ss, evs, x, j, row) && Idle(ss, x, row.job.id, ss[k].now);
  }
}
