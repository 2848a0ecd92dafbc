// Start-up recovery and the sweepers inside the running server: what recovery has
// achieved once it is done, what it keeps when it is cut off anywhere and any number of
// times, and when its writes are harmless beside running workers.
module Startup {
  import opened Models
  import opened Tables
  import opened Lifecycle
  import opened Ownership
  import opened Theorems
  import opened Ledger
  import opened CopyLedger

  // ---- recovery heals ----------------------------------------------------------------

  predicate InTodo(todo: seq<Row>, id: JobId) {
    exists i :: 0 <= i < |todo| && todo[i].job.id == id
  }

  // Start-up recovery has given up, or will yet put the job on the FIFO channel.
  predicate Ahead(s: State, id: JobId) {
    && STARTUP < |s.scans|
    && var x := s.scans[STARTUP];
       x.mode.Aborted? || (x.lane.ToFifo? && (x.mode.Resting? || (x.mode.Active? && InTodo(x.todo, id))))
  }

  // A copy was dropped by this very process, and not made good since.
  ghost predicate DroppedHere(c: Config, ss: seq<State>, evs: seq<Event>, k: nat, id: JobId)
    requires Run(c, ss, evs) && k < |ss|
  {
    exists m: nat :: m < k && DroppedAt(c, ss, evs, m, k, id) && SameProcess(evs, m, k)
  }

  ghost predicate SameProcess(evs: seq<Event>, m: nat, k: nat) {
    forall x :: m <= x < k && x < |evs| ==> !evs[x].Crash?
  }

  lemma OrphanWork(c: Config, s: State, i: nat, act: Act, id: JobId)
    requires Base(c, s) && i < |s.ws| && ActEnabled(c, s, i, act) && Orphan(s, id)
    ensures Orphan(Apply(c, s, i, Perform(c, s, i, act)), id)
  {
    PerformLegal(c, s, i, act);
    WorkDelta(c, s, i, Perform(c, s, i, act), id);
  }

  lemma OrphanScan(c: Config, s: State, ev: Event, id: JobId)
    requires Base(c, s) && Enabled(c, s, ev) && ev.Scan? && Orphan(s, id) && id in s.hist.lost
    requires !PicksUp(c, s, ev, id) && id in Fire(c, s, ev).hist.lost
    ensures Orphan(Fire(c, s, ev), id)
  {
    ScanRows(c, s, ev);
    match ev.step {
      case Pick(up) => PickCopies(c, s, ev.k, up, id);
      case Put(fits) => PutCopies(c, s, ev.k, fits, id);
      case _ => WalkCopies(c, s, ev.k, ev.step, id);
    }
  }

  lemma OrphanStays(c: Config, s: State, ev: Event, id: JobId)
    requires Sane(c, s) && Enabled(c, s, ev) && !ev.Crash? && Orphan(s, id) && id in s.hist.lost
    requires !PicksUp(c, s, ev, id) && id in Fire(c, s, ev).hist.lost
    ensures Orphan(Fire(c, s, ev), id)
  {
    if ev.Work? {
      OrphanWork(c, s, ev.i, ev.act, id);
    } else if ev.Scan? {
      OrphanScan(c, s, ev, id);
    } else {
      FireCases(c, s, ev);
      if Env(ev) {
        if ev.Restart? { Supervision.RestartAccounted(c, s); }
        EnvCopies(c, s, ev, id);
      } else {
        HttpCopies(c, s, ev, id);
        HttpRows(c, s, ev);
      }
    }
  }

  lemma TailKeeps(todo: seq<Row>, id: JobId)
    requires todo != [] && InTodo(todo, id) && todo[0].job.id != id
    ensures InTodo(todo[1..], id)
  {
    var i :| 0 <= i < |todo| && todo[i].job.id == id;
    assert todo[1..][i - 1] == todo[i];
  }

  // Recovery does not pass over an orphan.
  lemma AheadScan(c: Config, s: State, step: ScanAct, id: JobId)
    requires Base(c, s) && Enabled(c, s, Scan(STARTUP, step)) && Live(s.db, id) && Ahead(s, id)
    requires !PicksUp(c, s, Scan(STARTUP, step), id)
    ensures Ahead(FireScan(c, s, STARTUP, step), id)
  {
    var x := s.scans[STARTUP];
    if step.Pick? && x.todo[0].job.id != id {
      TailKeeps(x.todo, id);
    }
  }

  lemma AheadStays(c: Config, s: State, ev: Event, id: JobId)
    requires Base(c, s) && Enabled(c, s, ev) && !ev.Crash? && Live(s.db, id) && Ahead(s, id)
    requires !PicksUp(c, s, ev, id)
    ensures Ahead(Fire(c, s, ev), id)
  {
    if ev.Scan? && ev.k == STARTUP {
      AheadScan(c, s, ev.step, id);
    }
  }

  ghost predicate DroppedOrAhead(c: Config, ss: seq<State>, evs: seq<Event>, k: nat, id: JobId)
    requires Run(c, ss, evs) && k < |ss|
  {
    DroppedHere(c, ss, evs, k, id) || (Orphan(ss[k], id) && Ahead(ss[k], id))
  }

  lemma StillAhead(c: Config, s: State, ev: Event, id: JobId)
    requires Sane(c, s) && Enabled(c, s, ev) && !ev.Crash? && id in Fire(c, s, ev).hist.lost
    requires Orphan(s, id) && Ahead(s, id) && id in s.hist.lost && !PicksUp(c, s, ev, id)
    ensures Orphan(Fire(c, s, ev), id) && Ahead(Fire(c, s, ev), id)
  {
    OrphanStays(c, s, ev, id);
    AheadStays(c, s, ev, id);
  }

  lemma AheadAtStart(c: Config, s: State, id: JobId)
    requires id in FireEnv(c, s, Crash).hist.lost
    ensures Orphan(FireEnv(c, s, Crash), id) && Ahead(FireEnv(c, s, Crash), id)
  {
    var t := FireEnv(c, s, Crash);
    BootCopies(c, t.db, t.now, t.hist, id);
  }

  lemma AheadNext(c: Config, ss: seq<State>, evs: seq<Event>, k: nat, id: JobId)
    requires Run(c, ss, evs) && 0 < k < |ss| && !evs[k - 1].Crash? && Sane(c, ss[k - 1])
    requires id in ss[k - 1].hist.lost && id in ss[k].hist.lost && !PicksUp(c, ss[k - 1], evs[k - 1], id)
    requires DroppedOrAhead(c, ss, evs, k - 1, id)
    ensures DroppedOrAhead(c, ss, evs, k, id)
  {
    if DroppedHere(c, ss, evs, k - 1, id) {
      DropExtends(c, ss, evs, k, id);
    } else {
      StillAhead(c, ss[k - 1], evs[k - 1], id);
    }
  }

  lemma DropsHere(c: Config, ss: seq<State>, evs: seq<Event>, k: nat, id: JobId)
    requires Run(c, ss, evs) && 0 < k < |ss| && Drops(c, ss[k - 1], evs[k - 1], id) && !evs[k - 1].Crash?
    ensures DroppedOrAhead(c, ss, evs, k, id)
  {
    assert DroppedAt(c, ss, evs, k - 1, k, id);
  }

  lemma CrashedAhead(c: Config, ss: seq<State>, evs: seq<Event>, k: nat, id: JobId)
    requires Run(c, ss, evs) && 0 < k < |ss| && evs[k - 1].Crash? && id in ss[k].hist.lost
    ensures DroppedOrAhead(c, ss, evs, k, id)
  {
    AheadAtStart(c, ss[k - 1], id);
  }

  // A job without a copy was dropped by this process or is still ahead of recovery.
  ghost predicate LostExplained(c: Config, ss: seq<State>, evs: seq<Event>, k: nat, id: JobId)
    requires Run(c, ss, evs) && k < |ss|
  {
    id in ss[k].hist.lost ==> DroppedOrAhead(c, ss, evs, k, id)
  }

  lemma NothingLostYet(c: Config, ss: seq<State>, evs: seq<Event>, id: JobId)
    requires Run(c, ss, evs)
    ensures LostExplained(c, ss, evs, 0, id)
  {
  }

  lemma ExplainNext(c: Config, ss: seq<State>, evs: seq<Event>, k: nat, id: JobId)
    requires Run(c, ss, evs) && 0 < k < |ss| && Sane(c, ss[k - 1])
    requires LostExplained(c, ss, evs, k - 1, id)
    ensures LostExplained(c, ss, evs, k, id)
  {
    if id in ss[k].hist.lost {
      if evs[k - 1].Crash? {
        CrashedAhead(c, ss, evs, k, id);
      } else {
        LostCause(c, ss[k - 1], evs[k - 1], id);
        if Drops(c, ss[k - 1], evs[k - 1], id) {
          DropsHere(c, ss, evs, k, id);
        } else {
          AheadNext(c, ss, evs, k, id);
        }
      }
    }
  }

  lemma {:induction false} RunAhead(c: Config, ss: seq<State>, evs: seq<Event>, k: nat, id: JobId)
    requires Run(c, ss, evs) && k < |ss|
    ensures LostExplained(c, ss, evs, k, id)
  {
    if k == 0 {
      NothingLostYet(c, ss, evs, id);
    } else {
      RunAhead(c, ss, evs, k - 1, id);
      RunSane(c, ss, evs, k - 1);
      ExplainNext(c, ss, evs, k, id);
    }
  }

  lemma DropExtends(c: Config, ss: seq<State>, evs: seq<Event>, k: nat, id: JobId)
    requires Run(c, ss, evs) && 0 < k < |ss| && DroppedHere(c, ss, evs, k - 1, id)
    requires !PicksUp(c, ss[k - 1], evs[k - 1], id) && !evs[k - 1].Crash?
    ensures DroppedHere(c, ss, evs, k, id)
  {
    var m: nat :| m < k - 1 && DroppedAt(c, ss, evs, m, k - 1, id) && SameProcess(evs, m, k - 1);
    assert DroppedAt(c, ss, evs, m, k, id) && SameProcess(evs, m, k);
  }

  lemma WasLiveWork(c: Config, s: State, i: nat, act: Act, id: JobId)
    requires Base(c, s) && i < |s.ws| && ActEnabled(c, s, i, act) && Copies(s, id) == 0
    ensures Apply(c, s, i, Perform(c, s, i, act)).db == s.db
         || Perform(c, s, i, act).row.value.job.id != id
  {
    PerformLegal(c, s, i, act);
    WorkDelta(c, s, i, Perform(c, s, i, act), id);
  }

  // A job without a copy comes alive only with one.
  lemma WasLive(c: Config, s: State, ev: Event, id: JobId)
    requires Base(c, s) && Enabled(c, s, ev) && !ev.Crash?
    requires Copies(s, id) == 0 && Made(c, s, ev, id) == 0 && Live(Fire(c, s, ev).db, id)
    ensures Live(s.db, id)
  {
    if ev.Work? {
      WasLiveWork(c, s, ev.i, ev.act, id);
    } else if ev.Scan? {
      ScanRows(c, s, ev);
      ScanCoherent(c, s, ev.k, ev.step);
    }
  }

  // A live job of which this process has made no copy is still ahead of recovery.
  lemma {:induction false} UnmadeIsAhead(c: Config, ss: seq<State>, evs: seq<Event>, k: nat, id: JobId)
    requires Run(c, ss, evs) && k < |ss| && Live(ss[k].db, id) && MadeHere(c, ss, evs, k, id) == 0
    ensures Ahead(ss[k], id)
  {
    if k > 0 && !evs[k - 1].Crash? {
      RunSane(c, ss, evs, k - 1);
      CopiesAddUp(c, ss, evs, k - 1, id);
      WasLive(c, ss[k - 1], evs[k - 1], id);
      UnmadeIsAhead(c, ss, evs, k - 1, id);
      AheadStays(c, ss[k - 1], evs[k - 1], id);
    }
  }

  // Jobs are not lost: once start-up recovery has completed, whatever crashes and
  // interrupted recoveries came before and whatever the workers did meanwhile, this process
  // has made a copy of every live job. The job is without one exactly when all that were
  // made are gone again, and then this very process dropped the last.
  lemma RecoveryHeals(c: Config, ss: seq<State>, evs: seq<Event>, k: nat, id: JobId)
    requires Run(c, ss, evs) && k < |ss| && Serving(ss[k]) && Live(ss[k].db, id)
    ensures MadeHere(c, ss, evs, k, id) >= 1
    ensures Copies(ss[k], id) == 0 <==> GoneHere(c, ss, evs, k, id) == MadeHere(c, ss, evs, k, id)
    ensures Copies(ss[k], id) == 0 ==> DroppedHere(c, ss, evs, k, id)
  {
    CopiesAddUp(c, ss, evs, k, id);
    if MadeHere(c, ss, evs, k, id) == 0 { UnmadeIsAhead(c, ss, evs, k, id); }
    RunSane(c, ss, evs, k);
    if id in ss[k].hist.lost {
      RunAhead(c, ss, evs, k, id);
    } else {
      assert Copies(ss[k], id) >= Due(ss[k], id);
    }
  }

  // ---- recovery interrupted anywhere -------------------------------------------------

  ghost predicate TodoLive(s: State) {
    forall k, i :: 0 <= k < |s.scans| && 0 <= i < |s.scans[k].todo| ==> Live(s.db, s.scans[k].todo[i].job.id)
  }

  lemma ScanObligations(c: Config, s: State, ev: Event)
    requires Base(c, s) && Enabled(c, s, ev) && ev.Scan? && TodoLive(s)
    ensures SameObligations(s.db, Fire(c, s, ev).db)
    ensures forall id :: Live(s.db, id) <==> Live(Fire(c, s, ev).db, id)
  {
    ScanRows(c, s, ev);
    ScanCoherent(c, s, ev.k, ev.step);
    if PickedBy(s, ev).Some? {
      assert Live(s.db, s.scans[ev.k].todo[0].job.id);
    }
  }

  lemma ScanTodoLive(c: Config, s: State, ev: Event)
    requires Base(c, s) && Enabled(c, s, ev) && ev.Scan? && TodoLive(s)
    ensures TodoLive(Fire(c, s, ev))
  {
    var t := Fire(c, s, ev);
    ScanObligations(c, s, ev);
    forall k, i | 0 <= k < |t.scans| && 0 <= i < |t.scans[k].todo|
      ensures Live(t.db, t.scans[k].todo[i].job.id)
    {
      if k != ev.k || !ev.step.List? {
        TodoComesFrom(c, s, ev, k, i);
      }
    }
  }

  // Without a new listing nothing is added to a scanner's list.
  lemma TodoComesFrom(c: Config, s: State, ev: Event, k: nat, i: nat)
    requires Base(c, s) && Enabled(c, s, ev) && !ev.Crash? && !(ev.Scan? && ev.k == k && ev.step.List?)
    requires k < |s.scans| && |Fire(c, s, ev).scans| == |s.scans| && i < |Fire(c, s, ev).scans[k].todo|
    ensures exists i' :: 0 <= i' < |s.scans[k].todo| && s.scans[k].todo[i'] == Fire(c, s, ev).scans[k].todo[i]
  {
    if ev.Scan? && ev.k == k && ev.step.Pick? {
      assert Fire(c, s, ev).scans[k].todo[i] == s.scans[k].todo[i + 1];
    } else {
      assert Fire(c, s, ev).scans[k].todo[i] == s.scans[k].todo[i];
    }
  }

  predicate Unattended(ev: Event) {
    ev.Scan? || Env(ev)
  }

  lemma UnattendedStep(c: Config, s: State, ev: Event)
    requires Base(c, s) && Enabled(c, s, ev) && Unattended(ev) && TodoLive(s)
    ensures SameObligations(s.db, Fire(c, s, ev).db) && TodoLive(Fire(c, s, ev))
  {
    if ev.Scan? {
      ScanObligations(c, s, ev);
      ScanTodoLive(c, s, ev);
    } else {
      FireCases(c, s, ev);
      assert Fire(c, s, ev).db == s.db;
      assert Fire(c, s, ev).scans == if ev.Crash? then SCANNERS else s.scans;
    }
  }

  ghost predicate Unharmed(s: State, t: State) {
    SameObligations(s.db, t.db) && TodoLive(t)
  }

  lemma UnharmedYet(s: State)
    requires s.scans == SCANNERS
    ensures Unharmed(s, s)
  {
  }

  lemma UnharmedStep(c: Config, a: State, s: State, ev: Event)
    requires Base(c, s) && Enabled(c, s, ev) && Unattended(ev) && Unharmed(a, s)
    ensures Unharmed(a, Fire(c, s, ev))
  {
    UnattendedStep(c, s, ev);
    ObligationsChain(a.db, s.db, Fire(c, s, ev).db);
  }

  // However often start-up is interrupted, between any two statements of recovery and
  // the sweepers: as long as no worker and no request interferes, no row disappears, no
  // finished row and no retry count changes, and the same jobs are live.
  lemma {:induction false} CrashAnywhere(c: Config, ss: seq<State>, evs: seq<Event>, k: nat, m: nat)
    requires Run(c, ss, evs) && k <= m < |ss| && ss[k].scans == SCANNERS
    requires forall x :: k <= x < m ==> Unattended(evs[x])
    ensures Unharmed(ss[k], ss[m])
    decreases m
  {
    if k == m {
      UnharmedYet(ss[k]);
    } else {
      CrashAnywhere(c, ss, evs, k, m - 1);
      RunSane(c, ss, evs, m - 1);
      UnharmedStep(c, ss[k], ss[m - 1], evs[m - 1]);
    }
  }

  // ---- recovery beside running workers -----------------------------------------------

  // Only a worker finishes a job.
  lemma FinishedByWork(c: Config, s: State, ev: Event, id: JobId)
    requires Base(c, s) && Enabled(c, s, ev) && !ev.Work?
    ensures Live(s.db, id) ==> Live(Fire(c, s, ev).db, id)
  {
    if ev.Scan? {
      ScanRows(c, s, ev);
    } else {
      FireCases(c, s, ev);
      if Http(ev) && !Env(ev) { HttpRows(c, s, ev); }
    }
  }

  predicate Relists(ev: Event, j: nat) {
    ev.Crash? || (ev.Scan? && ev.k == j && ev.step.List?)
  }

  // Scanner j neither lists nor is restarted from event y up to state k.
  ghost predicate OneListing(evs: seq<Event>, y: nat, k: nat, j: nat) {
    forall z :: y <= z < k && z < |evs| ==> !Relists(evs[z], j)
  }

  // A worker finished the job at event y, under scanner j's present listing, and it has
  // stayed finished up to state k.
  ghost predicate FinishedAt(ss: seq<State>, evs: seq<Event>, y: nat, k: nat, j: nat, id: JobId)
    requires y < k < |ss| == |evs| + 1
  {
    && evs[y].Work? && Live(ss[y].db, id)
    && (forall z :: y < z <= k ==> !Live(ss[z].db, id))
    && OneListing(evs, y, k, j)
  }

  ghost predicate FinishedMeanwhile(ss: seq<State>, evs: seq<Event>, k: nat, j: nat, id: JobId)
    requires k < |ss| == |evs| + 1
  {
    exists y: nat :: y < k && FinishedAt(ss, evs, y, k, j, id)
  }

  // What is on a fresh listing is live.
  lemma RelistedLive(c: Config, s: State, ev: Event, j: nat, id: JobId)
    requires Base(c, s) && Enabled(c, s, ev) && Relists(ev, j)
    requires Lists(Fire(c, s, ev), j, id)
    ensures Live(Fire(c, s, ev).db, id)
  {
    if ev.Scan? { assert ScannerOk(s.db, s.scans[j]); }
  }

  lemma StillListed(c: Config, s: State, ev: Event, j: nat, id: JobId)
    requires Sane(c, s) && Enabled(c, s, ev) && !Relists(ev, j)
    requires Lists(Fire(c, s, ev), j, id)
    ensures Lists(s, j, id)
  {
    StepSane(c, s, ev);
    var i :| 0 <= i < |Fire(c, s, ev).scans[j].todo| && Fire(c, s, ev).scans[j].todo[i].job.id == id;
    TodoComesFrom(c, s, ev, j, i);
  }

  lemma FinishedOn(ss: seq<State>, evs: seq<Event>, k: nat, j: nat, id: JobId)
    requires 0 < k < |ss| == |evs| + 1 && !Relists(evs[k - 1], j) && !Live(ss[k].db, id)
    requires FinishedMeanwhile(ss, evs, k - 1, j, id) || (Live(ss[k - 1].db, id) && evs[k - 1].Work?)
    ensures FinishedMeanwhile(ss, evs, k, j, id)
  {
    if Live(ss[k - 1].db, id) && evs[k - 1].Work? {
      assert FinishedAt(ss, evs, k - 1, k, j, id);
    } else {
      var y: nat :| y < k - 1 && FinishedAt(ss, evs, y, k - 1, j, id);
      assert FinishedAt(ss, evs, y, k, j, id);
    }
  }

  ghost predicate LiveOrFinished(ss: seq<State>, evs: seq<Event>, k: nat, j: nat, id: JobId)
    requires k < |ss| == |evs| + 1
  {
    Live(ss[k].db, id) || FinishedMeanwhile(ss, evs, k, j, id)
  }

  lemma NextListed(c: Config, ss: seq<State>, evs: seq<Event>, k: nat, j: nat, id: JobId)
    requires 0 < k < |ss| == |evs| + 1 && Sane(c, ss[k - 1])
    requires Enabled(c, ss[k - 1], evs[k - 1]) && ss[k] == Fire(c, ss[k - 1], evs[k - 1])
    requires !Relists(evs[k - 1], j) && LiveOrFinished(ss, evs, k - 1, j, id)
    ensures LiveOrFinished(ss, evs, k, j, id)
  {
    if !Live(ss[k].db, id) {
      if !evs[k - 1].Work? { FinishedByWork(c, ss[k - 1], evs[k - 1], id); }
      FinishedOn(ss, evs, k, j, id);
    }
  }

  lemma InitListsNothing(c: Config, s: State, j: nat, id: JobId)
    requires Init(c, s) && j < |s.scans|
    ensures !InTodo(s.scans[j].todo, id)
  {
  }

  // Scanner j still has the job on its list.
  predicate Lists(s: State, j: nat, id: JobId) {
    j < |s.scans| && InTodo(s.scans[j].todo, id)
  }

  // Listed jobs are live, or a worker has finished them since.
  ghost predicate ListedOk(ss: seq<State>, evs: seq<Event>, k: nat, j: nat, id: JobId)
    requires k < |ss| == |evs| + 1
  {
    Lists(ss[k], j, id) ==> LiveOrFinished(ss, evs, k, j, id)
  }

  lemma ListedStep(c: Config, ss: seq<State>, evs: seq<Event>, k: nat, j: nat, id: JobId)
    requires 0 < k < |ss| == |evs| + 1 && Sane(c, ss[k - 1]) && ListedOk(ss, evs, k - 1, j, id)
    requires Enabled(c, ss[k - 1], evs[k - 1]) && ss[k] == Fire(c, ss[k - 1], evs[k - 1])
    ensures ListedOk(ss, evs, k, j, id)
  {
    if Lists(ss[k], j, id) {
      if Relists(evs[k - 1], j) {
        RelistedLive(c, ss[k - 1], evs[k - 1], j, id);
      } else {
        StillListed(c, ss[k - 1], evs[k - 1], j, id);
        NextListed(c, ss, evs, k, j, id);
      }
    }
  }

  lemma {:induction false} ListedThenFinished(c: Config, ss: seq<State>, evs: seq<Event>, k: nat, j: nat, id: JobId)
    requires Run(c, ss, evs) && k < |ss|
    ensures ListedOk(ss, evs, k, j, id)
  {
    if k == 0 {
      if Lists(ss[0], j, id) { InitListsNothing(c, ss[0], j, id); }
    } else {
      ListedThenFinished(c, ss, evs, k - 1, j, id);
      RunSane(c, ss, evs, k - 1);
      ListedStep(c, ss, evs, k, j, id);
    }
  }

  // The job whose row a scanner writes at event k has been finished by a worker since
  // the scanner listed it as processing.
  ghost predicate ResetsFinished(c: Config, ss: seq<State>, evs: seq<Event>, k: nat)
    requires Run(c, ss, evs) && k < |evs|
  {
    && evs[k].Scan? && Write(c, ss[k], evs[k]).Some?
    && FinishedMeanwhile(ss, evs, k, evs[k].k, Write(c, ss[k], evs[k]).value.job.id)
  }

  lemma ScanOverwrites(c: Config, ss: seq<State>, evs: seq<Event>, k: nat)
    requires Run(c, ss, evs) && k < |evs| && evs[k].Scan?
    ensures Overwrites(c, ss[k], evs[k]) <==> ResetsFinished(c, ss, evs, k)
  {
    var s, ev := ss[k], evs[k];
    RunSane(c, ss, evs, k);
    ScanWrites(c, s, ev);
    if Write(c, s, ev).Some? {
      var id, todo := Write(c, s, ev).value.job.id, s.scans[ev.k].todo;
      assert todo[0] == PickedBy(s, ev).value;
      PickEffect(c, s, ev.k, ev.step.up);
      assert todo[0].job.id == id;
      ListedThenFinished(c, ss, evs, k, ev.k, id);
    }
  }

  lemma ScanKeeps(c: Config, ss: seq<State>, evs: seq<Event>, k: nat)
    requires Run(c, ss, evs) && k < |evs| && evs[k].Scan?
    ensures SameObligations(ss[k].db, ss[k + 1].db) <==> !ResetsFinished(c, ss, evs, k)
  {
    RunSane(c, ss, evs, k);
    ScanWrites(c, ss[k], evs[k]);
    ScanOverwrites(c, ss, evs, k);
  }

  // Recovery and sweeps beside running workers, exactly: their writes keep every id,
  // retry count and finished row and the set of live jobs, if and only if no row listed as
  // processing is finished by a worker between its listing and its reset.
  lemma ScannersKeepObligations(c: Config, ss: seq<State>, evs: seq<Event>, m: nat)
    requires Run(c, ss, evs) && m < |ss|
    ensures (forall k :: 0 <= k < m && evs[k].Scan? ==> SameObligations(ss[k].db, ss[k + 1].db))
       <==> (forall k :: 0 <= k < m ==> !ResetsFinished(c, ss, evs, k))
  {
    forall k | 0 <= k < m
      ensures !ResetsFinished(c, ss, evs, k) <==> (evs[k].Scan? ==> SameObligations(ss[k].db, ss[k + 1].db))
    {
      if evs[k].Scan? { ScanKeeps(c, ss, evs, k); }
    }
    if forall k :: 0 <= k < m && evs[k].Scan? ==> SameObligations(ss[k].db, ss[k + 1].db) {
      forall k | 0 <= k < m ensures !ResetsFinished(c, ss, evs, k) {
        assert evs[k].Scan? ==> SameObligations(ss[k].db, ss[k + 1].db);
      }
    }
  }

  lemma ServingStays(c: Config, s: State, ev: Event)
    requires Enabled(c, s, ev) && Serving(s) && !ev.Crash?
    ensures Serving(Fire(c, s, ev))
  {
  }

  lemma {:induction false} StaysServing(c: Config, ss: seq<State>, evs: seq<Event>, y: nat, k: nat)
    requires Run(c, ss, evs) && y <= k < |ss| && Serving(ss[y])
    requires forall z :: y <= z < k ==> !evs[z].Crash?
    ensures Serving(ss[k])
    decreases k
  {
    if y < k {
      StaysServing(c, ss, evs, y, k - 1);
      ServingStays(c, ss[k - 1], evs[k - 1]);
    }
  }

  // If the pool only starts to work once recovery is done, recovery's writes keep all
  // obligations.
  lemma PoolAfterRecovery(c: Config, ss: seq<State>, evs: seq<Event>, m: nat)
    requires Run(c, ss, evs) && m < |ss|
    requires forall k :: 0 <= k < m && evs[k].Work? ==> Serving(ss[k])
    ensures forall k :: 0 <= k < m && evs[k].Scan? && evs[k].k == STARTUP ==> SameObligations(ss[k].db, ss[k + 1].db)
  {
    forall k | 0 <= k < m && evs[k].Scan? && evs[k].k == STARTUP
      ensures SameObligations(ss[k].db, ss[k + 1].db)
    {
      ScanKeeps(c, ss, evs, k);
      if ResetsFinished(c, ss, evs, k) {
        var y: nat :| y < k && FinishedAt(ss, evs, y, k, STARTUP, Write(c, ss[k], evs[k]).value.job.id);
        StaysServing(c, ss, evs, y, k);
        assert false;
      }
    }
  }

  // ---- a way to be safe ----------------------------------------------------------------

  // What is left of a scanner's listing: different jobs, live and without a copy.
  ghost predicate OrphansLeft(s: State, x: Scanner) {
    && (forall i :: 0 <= i < |x.todo| ==> Orphan(s, x.todo[i].job.id))
    && (forall i, k :: 0 <= i < k < |x.todo| ==> x.todo[i].job.id != x.todo[k].job.id)
  }

  ghost predicate AllOrphansLeft(s: State) {
    forall k :: 0 <= k < |s.scans| ==> OrphansLeft(s, s.scans[k])
  }

  // Scanners list only while no live job has a copy, and as long as a scanner has rows
  // left no worker, no request and no other scanner acts.
  ghost predicate Orderly(s: State, ev: Event) {
    && (ev.Scan? && ev.step.List? && ev.step.up ==> forall id :: Live(s.db, id) ==> Copies(s, id) == 0)
    && (forall k :: 0 <= k < |s.scans| && s.scans[k].todo != [] ==> Env(ev) || (ev.Scan? && ev.k == k))
  }

  // Steps that make no copy and touch no row leave what is left as it is.
  lemma OrphansStay(s: State, t: State, x: Scanner)
    requires OrphansLeft(s, x)
    requires forall i :: 0 <= i < |x.todo| ==>
      var id := x.todo[i].job.id; Copies(t, id) <= Copies(s, id) && (Live(s.db, id) ==> Live(t.db, id))
    ensures OrphansLeft(t, x)
  {
  }

  lemma OrderlyEnv(c: Config, s: State, ev: Event)
    requires Sane(c, s) && Enabled(c, s, ev) && Env(ev) && AllOrphansLeft(s)
    ensures AllOrphansLeft(FireEnv(c, s, ev))
  {
    var t := FireEnv(c, s, ev);
    if !ev.Crash? {
      forall k | 0 <= k < |t.scans| ensures OrphansLeft(t, t.scans[k]) {
        var x := s.scans[k];
        forall i | 0 <= i < |x.todo| ensures Copies(t, x.todo[i].job.id) <= Copies(s, x.todo[i].job.id) {
          EnvSettles(c, s, ev, x.todo[i].job.id);
        }
        OrphansStay(s, t, x);
      }
    }
  }

  // The scanner's own step: its head leaves the list, the others are other jobs.
  lemma OrderlyPick(c: Config, s: State, k: nat, up: bool)
    requires Sane(c, s) && Enabled(c, s, Scan(k, Pick(up))) && OrphansLeft(s, s.scans[k])
    ensures Harmless(c, s, Scan(k, Pick(up)))
    ensures OrphansLeft(FireScan(c, s, k, Pick(up)), FireScan(c, s, k, Pick(up)).scans[k])
  {
    var t, x := FireScan(c, s, k, Pick(up)), s.scans[k];
    assert Orphan(s, x.todo[0].job.id);
    var rest := x.(todo := x.todo[1..]);
    ScanRows(c, s, Scan(k, Pick(up)));
    forall i | 0 <= i < |rest.todo|
      ensures var id := rest.todo[i].job.id;
              id != x.todo[0].job.id && Copies(t, id) <= Copies(s, id) && (Live(s.db, id) ==> Live(t.db, id))
    {
      assert rest.todo[i] == x.todo[i + 1];
      PickCopies(c, s, k, up, rest.todo[i].job.id);
    }
    RestOrphans(s, x);
    OrphansStay(s, t, rest);
  }

  lemma RestOrphans(s: State, x: Scanner)
    requires OrphansLeft(s, x) && x.todo != []
    ensures OrphansLeft(s, x.(todo := x.todo[1..]))
  {
    var rest := x.todo[1..];
    assert forall i :: 0 <= i < |rest| ==> rest[i] == x.todo[i + 1];
  }

  lemma OrderlyPut(c: Config, s: State, k: nat, fits: bool)
    requires Sane(c, s) && Enabled(c, s, Scan(k, Put(fits))) && OrphansLeft(s, s.scans[k])
    ensures OrphansLeft(FireScan(c, s, k, Put(fits)), FireScan(c, s, k, Put(fits)).scans[k])
  {
    var t, x := FireScan(c, s, k, Put(fits)), s.scans[k];
    forall i | 0 <= i < |x.todo| ensures Copies(t, x.todo[i].job.id) <= Copies(s, x.todo[i].job.id) {
      PutSettles(c, s, k, fits, x.todo[i].job.id);
    }
    OrphansStay(s, t, x);
  }

  lemma OrderlyList(c: Config, s: State, k: nat, act: ScanAct)
    requires Sane(c, s) && Enabled(c, s, Scan(k, act)) && Orderly(s, Scan(k, act)) && (act.List? || act.Finish?)
    ensures OrphansLeft(FireScan(c, s, k, act), FireScan(c, s, k, act).scans[k])
  {
    var t := FireScan(c, s, k, act);
    assert ScannerOk(s.db, s.scans[k]);
    forall i | 0 <= i < |t.scans[k].todo| ensures Orphan(t, t.scans[k].todo[i].job.id) {
      WalkSettles(c, s, k, act, t.scans[k].todo[i].job.id);
    }
  }

  lemma OrderlyScan(c: Config, s: State, ev: Event)
    requires Sane(c, s) && Enabled(c, s, ev) && ev.Scan? && AllOrphansLeft(s) && Orderly(s, ev)
    ensures Harmless(c, s, ev)
    ensures OrphansLeft(FireScan(c, s, ev.k, ev.step), FireScan(c, s, ev.k, ev.step).scans[ev.k])
  {
    assert OrphansLeft(s, s.scans[ev.k]);
    match ev.step {
      case Pick(up) => OrderlyPick(c, s, ev.k, up);
      case Put(fits) => OrderlyPut(c, s, ev.k, fits);
      case _ => OrderlyList(c, s, ev.k, ev.step);
    }
  }

  // Nobody but scanner j touches a list, and j's own is the only one with rows left.
  lemma OthersIdle(c: Config, s: State, ev: Event, k: nat)
    requires Enabled(c, s, ev) && Orderly(s, ev) && !Env(ev) && k < |s.scans| && !(ev.Scan? && ev.k == k)
    ensures k < |Fire(c, s, ev).scans| && Fire(c, s, ev).scans[k].todo == []
  {
  }

  lemma OrderlyStep(c: Config, s: State, ev: Event)
    requires Sane(c, s) && Enabled(c, s, ev) && AllOrphansLeft(s) && Orderly(s, ev)
    ensures Harmless(c, s, ev) && AllOrphansLeft(Fire(c, s, ev))
  {
    if Env(ev) {
      FireCases(c, s, ev);
      OrderlyEnv(c, s, ev);
    } else {
      if ev.Scan? { OrderlyScan(c, s, ev); }
      StepSane(c, s, ev);
      var t := Fire(c, s, ev);
      forall k | 0 <= k < |t.scans| ensures OrphansLeft(t, t.scans[k]) {
        if !(ev.Scan? && ev.k == k) { OthersIdle(c, s, ev, k); }
      }
    }
  }

  ghost predicate OrderlyRun(ss: seq<State>, evs: seq<Event>, m: nat)
    requires m < |ss| == |evs| + 1
  {
    forall k :: 0 <= k < m ==> Orderly(ss[k], evs[k])
  }

  lemma StartLeavesNothing(c: Config, s: State)
    requires Init(c, s)
    ensures AllOrphansLeft(s)
  {
  }

  lemma {:induction false} RunOrderly(c: Config, ss: seq<State>, evs: seq<Event>, m: nat)
    requires Run(c, ss, evs) && m < |ss| && OrderlyRun(ss, evs, m)
    ensures AllOrphansLeft(ss[m])
  {
    if m == 0 {
      StartLeavesNothing(c, ss[0]);
    } else {
      RunOrderly(c, ss, evs, m - 1);
      RunSane(c, ss, evs, m - 1);
      OrderlyStep(c, ss[m - 1], evs[m - 1]);
    }
  }

  // If recovery and the sweepers list only while no live job has a copy, and are left alone
  // until their list is done, then whatever they put back each job keeps one owner, and
  // the books and the budgets stay exact.
  lemma OrderlyScans(c: Config, ss: seq<State>, evs: seq<Event>, m: nat)
    requires Run(c, ss, evs) && m < |ss| && OrderlyRun(ss, evs, m)
    ensures SoleThroughout(c, ss, evs, m)
    ensures forall k :: 0 <= k < m ==> !Overwrites(c, ss[k], evs[k]) && !Stale(ss[k], evs[k])
    ensures forall k, id :: 0 <= k < m ==> !Spoils(c, ss[k], evs[k], id)
  {
    forall k | 0 <= k < m ensures Harmless(c, ss[k], evs[k]) {
      RunOrderly(c, ss, evs, k);
      RunSane(c, ss, evs, k);
      OrderlyStep(c, ss[k], evs[k]);
    }
    SingleOwnership(c, ss, evs, m);
    OrphansKeepBooks(c, ss, evs, m);
  }

  // A process that has just started meets the condition for listing.
  lemma StartIsOrderly(c: Config, db: Table, now: Time, hist: History, rows: seq<Row>)
    ensures Orderly(Boot(c, db, now, hist), Scan(STARTUP, List(true, rows)))
  {
    var s := Boot(c, db, now, hist);
    forall id | Live(s.db, id) ensures Copies(s, id) == 0 { BootCopies(c, db, now, hist, id); }
  }
}
