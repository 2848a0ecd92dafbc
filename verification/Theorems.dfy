// What holds in every run of the server: any number of workers and requests, start-up
// recovery after every start, sweepers at any time, any interleaving, failing
// statements, full queues, panics, shutdowns and crashes.
module Theorems {
  import opened Models
  import opened Counting
  import opened Lifecycle
  import opened Ownership
  import opened Supervision

  ghost predicate Sane(c: Config, s: State) {
    Base(c, s) && Accounted(c, s)
  }

  lemma InitSane(c: Config, s: State)
    requires Init(c, s)
    ensures Sane(c, s) && Inv(c, s)
  {
    forall id ensures Copies(s, id) == Due(s, id) { BootCopies(c, map[], s.now, NO_HISTORY, id); }
  }

  lemma StepSane(c: Config, s: State, ev: Event)
    requires Sane(c, s) && Enabled(c, s, ev)
    ensures Sane(c, Fire(c, s, ev))
  {
    StepAccounted(c, s, ev);
    if ev.Work? {
      PerformLegal(c, s, ev.i, ev.act);
      WorkBase(c, s, ev.i, Perform(c, s, ev.i, ev.act));
    } else if ev.Scan? {
      ScanBase(c, s, ev);
    } else if Env(ev) {
      if ev.Restart? { RestartAccounted(c, s); }
      EnvBase(c, s, ev);
    } else {
      HttpBase(c, s, ev);
    }
  }

  lemma {:induction false} RunSane(c: Config, ss: seq<State>, evs: seq<Event>, k: nat)
    requires Run(c, ss, evs) && k < |ss|
    ensures Sane(c, ss[k])
  {
    if k == 0 {
      InitSane(c, ss[0]);
    } else {
      RunSane(c, ss, evs, k - 1);
      StepSane(c, ss[k - 1], evs[k - 1]);
    }
  }

  // ---- at least once ---------------------------------------------------------------

  // The event drops a copy of `id`: a failed enqueue or statement, a panic, or the end
  // of the process.
  ghost predicate Drops(c: Config, s: State, ev: Event, id: JobId)
    requires Enabled(c, s, ev)
  {
    match ev
    case Work(i, act) =>
      && Carries(s.ws[i].pc) && s.ws[i].pc.job.id == id
      && (match act
         case Process(verdict) => verdict.Panic?
         case Ack(up) => !up
         case NackRead(up) => !up
         case NackWrite(up) => !up
         case NackEnqueue(fits) => !fits
         case RequeueWrite(up) => !up
         case RequeueRead(up) => !up
         case RequeueEnqueue(fits) => !fits
         case _ => false)
    case Enqueue(t, fits) => !fits && s.hs[t].job.id == id
    case ReadRetry(t, up) => !up && s.hs[t].job.id == id
    case EnqueueRetry(t, fits) => !fits && s.hs[t].job.id == id
    case Scan(k, step) => step == Put(false) && s.scans[k].hand.value.id == id
    case Crash => Live(s.db, id)
    case _ => false
  }

  lemma WorkLostCause(c: Config, s: State, i: nat, act: Act, id: JobId)
    requires Sane(c, s) && i < |s.ws| && ActEnabled(c, s, i, act)
    requires Perform(c, s, i, act).drop == Some(id)
    ensures Drops(c, s, Work(i, act), id)
  {
  }

  lemma LostCause(c: Config, s: State, ev: Event, id: JobId)
    requires Sane(c, s) && Enabled(c, s, ev)
    requires id in Fire(c, s, ev).hist.lost
    ensures Drops(c, s, ev, id) || (id in s.hist.lost && !PicksUp(c, s, ev, id))
  {
    match ev {
      case Work(i, act) =>
        if Perform(c, s, i, act).drop == Some(id) { WorkLostCause(c, s, i, act, id); }
      case ReadRetry(t, _) => assert HandlerOk(s.db, s.hs[t]);
      case Scan(k, step) => ScanLostCause(c, s, k, step, id);
      case _ =>
    }
  }

  lemma ScanLostCause(c: Config, s: State, k: nat, step: ScanAct, id: JobId)
    requires Sane(c, s) && Enabled(c, s, Scan(k, step))
    requires id in FireScan(c, s, k, step).hist.lost
    ensures Drops(c, s, Scan(k, step), id) || (id in s.hist.lost && !PicksUp(c, s, Scan(k, step), id))
  {
    if step.Pick? { PickEffect(c, s, k, step.up); }
  }

  ghost predicate PicksUp(c: Config, s: State, ev: Event, id: JobId)
    requires Enabled(c, s, ev)
  {
    PickedBy(s, ev).Some? && PickedBy(s, ev).value.job.id == id
  }

  // Some event before state k dropped a copy of the job, and no scanner has picked the
  // job up since.
  ghost predicate Dropped(c: Config, ss: seq<State>, evs: seq<Event>, k: nat, id: JobId)
    requires Run(c, ss, evs) && k < |ss|
  {
    exists m :: 0 <= m < k && DroppedAt(c, ss, evs, m, k, id)
  }

  ghost predicate DroppedAt(c: Config, ss: seq<State>, evs: seq<Event>, m: nat, k: nat, id: JobId)
    requires Run(c, ss, evs) && m < k < |ss|
  {
    && Drops(c, ss[m], evs[m], id)
    && forall x :: m < x < k ==> !PicksUp(c, ss[x], evs[x], id)
  }

  lemma {:induction false} LostWasDropped(c: Config, ss: seq<State>, evs: seq<Event>, k: nat, id: JobId)
    requires Run(c, ss, evs) && k < |ss| && id in ss[k].hist.lost
    ensures Dropped(c, ss, evs, k, id)
  {
    if k > 0 {
      RunSane(c, ss, evs, k - 1);
      LostCause(c, ss[k - 1], evs[k - 1], id);
      if Drops(c, ss[k - 1], evs[k - 1], id) {
        assert DroppedAt(c, ss, evs, k - 1, k, id);
      } else {
        LostWasDropped(c, ss, evs, k - 1, id);
        var m: nat :| m < k - 1 && DroppedAt(c, ss, evs, m, k - 1, id);
        assert DroppedAt(c, ss, evs, m, k, id);
      }
    }
  }

  // In every run, recoveries and sweeps included, a live job without a copy had one
  // dropped, and no scanner has picked the job up since.
  lemma BackedOrDropped(c: Config, ss: seq<State>, evs: seq<Event>, k: nat, id: JobId)
    requires Run(c, ss, evs) && k < |ss|
    ensures Live(ss[k].db, id) && !Dropped(c, ss, evs, k, id) ==> Copies(ss[k], id) >= 1
  {
    RunSane(c, ss, evs, k);
    assert Copies(ss[k], id) >= Due(ss[k], id);
    if id in ss[k].hist.lost {
      LostWasDropped(c, ss, evs, k, id);
    }
  }

  // No step, not even a crash, removes a row or changes what a job is.
  ghost predicate KeepsJobs(s: State, t: State) {
    forall id :: id in s.db ==> id in t.db && t.db[id].job == s.db[id].job
  }

  lemma StepKeepsJobs(c: Config, s: State, ev: Event)
    requires Sane(c, s) && Enabled(c, s, ev)
    ensures KeepsJobs(s, Fire(c, s, ev))
  {
    if ev.Work? {
      PerformLegal(c, s, ev.i, ev.act);
    } else if ev.Scan? {
      ScanRows(c, s, ev);
    }
  }

  // No job ever vanishes from the table or changes its identity.
  lemma {:induction false} JobsAreDurable(c: Config, ss: seq<State>, evs: seq<Event>, k: nat, m: nat)
    requires Run(c, ss, evs) && k <= m < |ss|
    ensures KeepsJobs(ss[k], ss[m])
    decreases m
  {
    if k < m {
      JobsAreDurable(c, ss, evs, k, m - 1);
      RunSane(c, ss, evs, m - 1);
      StepKeepsJobs(c, ss[m - 1], evs[m - 1]);
      JobsChain(ss[k], ss[m - 1], ss[m]);
    }
  }

  lemma JobsChain(a: State, b: State, c: State)
    requires KeepsJobs(a, b) && KeepsJobs(b, c)
    ensures KeepsJobs(a, c)
  {
  }

  // ---- single ownership ------------------------------------------------------------

  // No job has two copies, and one that is completed, failed or unknown has none.
  ghost predicate Sole(s: State) {
    forall id :: Copies(s, id) <= 1 && (!Live(s.db, id) ==> Copies(s, id) == 0)
  }

  // A finished row stays as it is, but for the manual retry of a failed one.
  ghost predicate KeepsFinished(s: State, t: State, ev: Event) {
    forall id :: id in s.db && s.db[id].status.Terminal() ==>
      id in t.db && (t.db[id] == s.db[id] || (s.db[id].status.Failed? && ev.ResetRetry?))
  }

  lemma StepInv(c: Config, s: State, ev: Event)
    requires Inv(c, s) && Accounted(c, s) && Enabled(c, s, ev) && Harmless(c, s, ev)
    ensures Inv(c, Fire(c, s, ev)) && KeepsFinished(s, Fire(c, s, ev), ev)
  {
    StepSane(c, s, ev);
    StepSolo(c, s, ev);
    StepFinished(c, s, ev);
  }

  lemma PerformSolo(c: Config, s: State, i: nat, act: Act)
    requires Inv(c, s) && i < |s.ws| && ActEnabled(c, s, i, act)
    ensures Solo(Apply(c, s, i, Perform(c, s, i, act)))
  {
    PerformLegal(c, s, i, act);
    PerformThrifty(c, s, i, act);
    WorkSolo(c, s, i, Perform(c, s, i, act));
  }

  lemma FireCases(c: Config, s: State, ev: Event)
    requires Enabled(c, s, ev) && !ev.Work? && !ev.Scan?
    ensures Env(ev) ==> Fire(c, s, ev) == FireEnv(c, s, ev)
    ensures !Env(ev) ==> Http(ev) && Fire(c, s, ev) == FireHttp(c, s, ev)
  {
  }

  lemma StepSolo(c: Config, s: State, ev: Event)
    requires Inv(c, s) && Accounted(c, s) && Enabled(c, s, ev) && Harmless(c, s, ev)
    ensures Solo(Fire(c, s, ev))
  {
    if ev.Work? {
      PerformSolo(c, s, ev.i, ev.act);
    } else if ev.Scan? {
      ScanSolo(c, s, ev);
    } else {
      FireCases(c, s, ev);
      OtherSolo(c, s, ev);
    }
  }

  lemma OtherSolo(c: Config, s: State, ev: Event)
    requires Inv(c, s) && Accounted(c, s) && Enabled(c, s, ev) && (Env(ev) || Http(ev))
    ensures Solo(if Env(ev) then FireEnv(c, s, ev) else FireHttp(c, s, ev))
  {
    if Env(ev) {
      if ev.Restart? { RestartAccounted(c, s); }
      EnvSolo(c, s, ev);
    } else {
      HttpSolo(c, s, ev);
    }
  }

  lemma StepFinished(c: Config, s: State, ev: Event)
    requires Inv(c, s) && Enabled(c, s, ev) && Harmless(c, s, ev)
    ensures KeepsFinished(s, Fire(c, s, ev), ev)
  {
    if ev.Work? {
      PerformLegal(c, s, ev.i, ev.act);
      if Carries(s.ws[ev.i].pc) { HandIsLive(s, ev.i); }
    } else if ev.Scan? {
      ScanRows(c, s, ev);
    }
  }

  lemma InvIsSole(c: Config, s: State)
    requires Inv(c, s)
    ensures Sole(s)
  {
    forall id ensures Copies(s, id) <= 1 && (!Live(s.db, id) ==> Copies(s, id) == 0) {
      assert Copies(s, id) == Due(s, id);
    }
  }

  // Picking up anything but an orphan makes a second copy, a copy of a finished job, or
  // overwrites a finished row.
  lemma HarmShows(c: Config, s: State, ev: Event)
    requires Inv(c, s) && Enabled(c, s, ev) && !Harmless(c, s, ev)
    ensures !Sole(Fire(c, s, ev)) || !KeepsFinished(s, Fire(c, s, ev), ev)
  {
    var t, row := Fire(c, s, ev), PickedBy(s, ev).value;
    var id := row.job.id;
    PickCopies(c, s, ev.k, ev.step.up, id);
    PickEffect(c, s, ev.k, ev.step.up);
    if Copies(s, id) == 0 {
      assert s.db[id].status.Terminal();
    }
  }

  // So far the scanners have picked up nothing but orphans.
  ghost predicate OnlyOrphans(c: Config, ss: seq<State>, evs: seq<Event>, m: nat)
    requires Run(c, ss, evs) && m < |ss|
  {
    forall k :: 0 <= k < m ==> Harmless(c, ss[k], evs[k])
  }

  lemma {:induction false} RunInv(c: Config, ss: seq<State>, evs: seq<Event>, m: nat)
    requires Run(c, ss, evs) && m < |ss| && OnlyOrphans(c, ss, evs, m)
    ensures Inv(c, ss[m])
  {
    if m == 0 {
      InitSane(c, ss[0]);
    } else {
      RunInv(c, ss, evs, m - 1);
      RunSane(c, ss, evs, m - 1);
      StepInv(c, ss[m - 1], evs[m - 1]);
    }
  }

  ghost predicate SoleThroughout(c: Config, ss: seq<State>, evs: seq<Event>, m: nat)
    requires Run(c, ss, evs) && m < |ss|
  {
    && (forall k :: 0 <= k <= m ==> Sole(ss[k]))
    && (forall k :: 0 <= k < m ==> KeepsFinished(ss[k], ss[k + 1], evs[k]))
  }

  // Single ownership, exactly: no job ever has two copies, finished jobs have none and
  // finished rows stay finished throughout a run if and only if everything that recovery
  // and the sweepers have picked up was live and nowhere else when they reached it.
  lemma {:induction false} SingleOwnership(c: Config, ss: seq<State>, evs: seq<Event>, m: nat)
    requires Run(c, ss, evs) && m < |ss|
    ensures SoleThroughout(c, ss, evs, m) <==> OnlyOrphans(c, ss, evs, m)
  {
    RunSane(c, ss, evs, m);
    if m == 0 {
      RunInv(c, ss, evs, 0);
      InvIsSole(c, ss[0]);
    } else {
      var s, ev := ss[m - 1], evs[m - 1];
      SingleOwnership(c, ss, evs, m - 1);
      if OnlyOrphans(c, ss, evs, m - 1) {
        RunInv(c, ss, evs, m - 1);
        RunSane(c, ss, evs, m - 1);
        if Harmless(c, s, ev) {
          StepInv(c, s, ev);
          InvIsSole(c, ss[m]);
        } else {
          HarmShows(c, s, ev);
        }
      }
      SoleExtends(c, ss, evs, m);
      OrphansExtend(c, ss, evs, m);
    }
  }

  lemma SoleExtends(c: Config, ss: seq<State>, evs: seq<Event>, m: nat)
    requires Run(c, ss, evs) && 0 < m < |ss|
    ensures SoleThroughout(c, ss, evs, m) <==>
      SoleThroughout(c, ss, evs, m - 1) && Sole(ss[m]) && KeepsFinished(ss[m - 1], ss[m], evs[m - 1])
  {
  }

  lemma OrphansExtend(c: Config, ss: seq<State>, evs: seq<Event>, m: nat)
    requires Run(c, ss, evs) && 0 < m < |ss|
    ensures OnlyOrphans(c, ss, evs, m) <==> OnlyOrphans(c, ss, evs, m - 1) && Harmless(c, ss[m - 1], evs[m - 1])
  {
  }

  // ---- supervision ----------------------------------------------------------------

  // Every worker id is in exactly one of three places: its loop runs, its death waits
  // in the channel (once), or the supervisor holds it. A dying worker always finds
  // room for its signal, and only a dead loop is ever restarted.
  lemma NoDeathDropped(c: Config, ss: seq<State>, evs: seq<Event>, k: nat, i: nat)
    requires Run(c, ss, evs) && k < |ss| && i < c.workers
    ensures |ss[k].ws| == c.workers
    ensures var s := ss[k];
            Bit(!s.ws[i].pc.Dead?) + Count(s.crew.died, Is(i)) + Bit(HeldBySupervisor(s.crew.sup, i)) == 1
    ensures ss[k].ws[i].pc.Exiting? ==> |ss[k].crew.died| < c.workers
    ensures |ss[k].crew.died| <= c.workers
    ensures k < |evs| && evs[k].Restart? ==> ss[k].ws[ss[k].crew.sup.id].pc.Dead?
  {
    RunSane(c, ss, evs, k);
    var s := ss[k];
    if i in s.crew.died {
      var a :| 0 <= a < |s.crew.died| && s.crew.died[a] == i;
      CountOnce(s.crew.died, a);
    } else {
      CountNone(s.crew.died, Is(i));
    }
    if s.ws[i].pc.Exiting? { SignalFits(c, s, i); }
    if s.crew.died != [] { FitsChannel(s.crew.died, c.workers); }
    if k < |evs| && evs[k].Restart? { RestartAccounted(c, s); }
  }

  function Is(i: nat): nat -> bool { (x: nat) => x == i }

  lemma CountOnce(q: seq<nat>, a: nat)
    requires a < |q| && forall x, y :: 0 <= x < y < |q| ==> q[x] != q[y]
    ensures Count(q, Is(q[a])) == 1
  {
    assert q == q[..a] + [q[a]] + q[a + 1..];
    CountConcat(q[..a] + [q[a]], q[a + 1..], Is(q[a]));
    CountSnoc(q[..a], q[a], Is(q[a]));
    CountNone(q[..a], Is(q[a]));
    CountNone(q[a + 1..], Is(q[a]));
  }

  lemma FitsChannel(q: seq<nat>, n: nat)
    requires q != [] && forall x, y :: 0 <= x < y < |q| ==> q[x] != q[y]
    requires forall x :: 0 <= x < |q| ==> q[x] < n
    ensures |q| <= n
  {
    var p := q[..|q| - 1];
    Pigeonhole(p, n, q[|q| - 1]);
  }
}
