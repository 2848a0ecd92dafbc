// The ledger of copies: in every run, the copies of a job in the process are those made
// less those gone since the process started.
module CopyLedger {
  import opened Models
  import opened Tables
  import opened Counting
  import opened Lifecycle
  import opened Ownership
  import Supervision
  import opened Theorems

  // A copy comes into being when the job is created, revived by hand or picked up.
  ghost function Made(c: Config, s: State, ev: Event, id: JobId): nat
    requires Enabled(c, s, ev)
  {
    match ev
    case Create(x, _, _, up) => Bit(up && x == id && id !in s.db)
    case ResetRetry(t, up) => Bit(up && s.hs[t].id == id && Resettable(s.db, id))
    case Scan(_, _) => Bit(PicksUp(c, s, ev, id))
    case _ => 0
  }

  // A worker writes completed or failed over the row of the job it carries.
  predicate Finishes(c: Config, s: State, ev: Event, id: JobId)
    requires Enabled(c, s, ev)
  {
    ev.Work? &&
      var row := Perform(c, s, ev.i, ev.act).row;
      row.Some? && row.value.job.id == id && row.value.status.Terminal()
  }

  // A copy ceases to be when it is dropped or its job is finished through it.
  ghost function Gone(c: Config, s: State, ev: Event, id: JobId): nat
    requires Enabled(c, s, ev)
  {
    Bit(Drops(c, s, ev, id)) + Bit(Finishes(c, s, ev, id))
  }

  ghost predicate Settles(c: Config, s: State, ev: Event, t: State, id: JobId)
    requires Enabled(c, s, ev)
  {
    Copies(t, id) + Gone(c, s, ev, id) == Copies(s, id) + Made(c, s, ev, id)
  }

  lemma DropsIffEffect(c: Config, s: State, i: nat, act: Act, id: JobId)
    requires Base(c, s) && i < |s.ws| && ActEnabled(c, s, i, act)
    ensures Perform(c, s, i, act).drop == Some(id) <==> Drops(c, s, Work(i, act), id)
  {
    assert WorkerOk(s.db, s.ws[i]);
  }

  lemma WorkSettles(c: Config, s: State, i: nat, act: Act, id: JobId)
    requires Base(c, s) && i < |s.ws| && ActEnabled(c, s, i, act)
    ensures Settles(c, s, Work(i, act), Apply(c, s, i, Perform(c, s, i, act)), id)
  {
    PerformLegal(c, s, i, act);
    WorkDelta(c, s, i, Perform(c, s, i, act), id);
    DropsIffEffect(c, s, i, act, id);
  }

  lemma CreateSettles(c: Config, s: State, ev: Event, id: JobId)
    requires Enabled(c, s, ev) && (ev.Create? || ev.AskRetry?)
    ensures Settles(c, s, ev, FireHttp(c, s, ev), id)
  {
    var t := FireHttp(c, s, ev);
    if |t.hs| > |s.hs| {
      CountSnoc(s.hs, t.hs[|s.hs|], HandlerHas(id));
    }
  }

  lemma PlaceSettles(c: Config, s: State, ev: Event, id: JobId)
    requires Enabled(c, s, ev) && ev.Place?
    ensures Settles(c, s, ev, FireHttp(c, s, ev), id)
  {
    var t := FireHttp(c, s, ev);
    CountUpdate(s.hs, ev.t, t.hs[ev.t], HandlerHas(id));
    if t.ws != s.ws {
      var v := Victim(s.ws).value;
      HeldUpdate(s.ws, v, t.ws[v], id);
    }
  }

  lemma EnqueueSettles(c: Config, s: State, ev: Event, id: JobId)
    requires Enabled(c, s, ev) && (ev.Enqueue? || ev.EnqueueRetry?)
    ensures Settles(c, s, ev, FireHttp(c, s, ev), id)
  {
    var t := FireHttp(c, s, ev);
    CountUpdate(s.hs, ev.t, t.hs[ev.t], HandlerHas(id));
    PushCopies(s.q, s.hs[ev.t].job, id);
    RouteCopies(s.q, s.hs[ev.t].job, id);
  }

  lemma ResetSettles(c: Config, s: State, ev: Event, id: JobId)
    requires Base(c, s) && Enabled(c, s, ev) && ev.ResetRetry?
    ensures Settles(c, s, ev, FireHttp(c, s, ev), id)
  {
    var t := FireHttp(c, s, ev);
    CountUpdate(s.hs, ev.t, t.hs[ev.t], HandlerHas(id));
  }

  lemma ReadSettles(c: Config, s: State, ev: Event, id: JobId)
    requires Base(c, s) && Enabled(c, s, ev) && ev.ReadRetry?
    ensures Settles(c, s, ev, FireHttp(c, s, ev), id)
  {
    var t := FireHttp(c, s, ev);
    assert HandlerOk(s.db, s.hs[ev.t]);
    CountUpdate(s.hs, ev.t, t.hs[ev.t], HandlerHas(id));
  }

  lemma PutSettles(c: Config, s: State, k: nat, fits: bool, id: JobId)
    requires Base(c, s) && Enabled(c, s, Scan(k, Put(fits)))
    ensures Settles(c, s, Scan(k, Put(fits)), FireScan(c, s, k, Put(fits)), id)
  {
    var t, x := FireScan(c, s, k, Put(fits)), s.scans[k];
    CountUpdate(s.scans, k, t.scans[k], ScannerHas(id));
    DeliverCopies(s.q, x.lane, x.hand.value, id);
  }

  lemma WalkSettles(c: Config, s: State, k: nat, act: ScanAct, id: JobId)
    requires Base(c, s) && Enabled(c, s, Scan(k, act)) && (act.List? || act.Finish?)
    ensures Settles(c, s, Scan(k, act), FireScan(c, s, k, act), id)
  {
    var t := FireScan(c, s, k, act);
    assert ScannerOk(s.db, s.scans[k]);
    CountUpdate(s.scans, k, t.scans[k], ScannerHas(id));
  }

  lemma ScanSettles(c: Config, s: State, k: nat, act: ScanAct, id: JobId)
    requires Base(c, s) && Enabled(c, s, Scan(k, act))
    ensures Settles(c, s, Scan(k, act), FireScan(c, s, k, act), id)
  {
    match act {
      case Pick(up) => PickCopies(c, s, k, up, id);
      case Put(fits) => PutSettles(c, s, k, fits, id);
      case _ => WalkSettles(c, s, k, act, id);
    }
  }

  lemma EnvSettles(c: Config, s: State, ev: Event, id: JobId)
    requires Sane(c, s) && Enabled(c, s, ev) && Env(ev) && !ev.Crash?
    ensures Settles(c, s, ev, FireEnv(c, s, ev), id)
  {
    if ev.Restart? {
      Supervision.RestartAccounted(c, s);
      RestartCopies(c, s, id);
    }
  }

  lemma HttpSettles(c: Config, s: State, ev: Event, id: JobId)
    requires Base(c, s) && Enabled(c, s, ev) && Http(ev)
    ensures Settles(c, s, ev, FireHttp(c, s, ev), id)
  {
    match ev {
      case Place(_) => PlaceSettles(c, s, ev, id);
      case Enqueue(_, _) => EnqueueSettles(c, s, ev, id);
      case EnqueueRetry(_, _) => EnqueueSettles(c, s, ev, id);
      case ResetRetry(_, _) => ResetSettles(c, s, ev, id);
      case ReadRetry(_, _) => ReadSettles(c, s, ev, id);
      case _ => CreateSettles(c, s, ev, id);
    }
  }

  lemma StepSettles(c: Config, s: State, ev: Event, id: JobId)
    requires Sane(c, s) && Enabled(c, s, ev) && !ev.Crash?
    ensures Settles(c, s, ev, Fire(c, s, ev), id)
  {
    if ev.Work? {
      WorkSettles(c, s, ev.i, ev.act, id);
    } else if ev.Scan? {
      ScanSettles(c, s, ev.k, ev.step, id);
    } else {
      FireCases(c, s, ev);
      if Env(ev) { EnvSettles(c, s, ev, id); } else { HttpSettles(c, s, ev, id); }
    }
  }

  // Since the last start of the process.
  ghost function MadeHere(c: Config, ss: seq<State>, evs: seq<Event>, k: nat, id: JobId): nat
    requires Run(c, ss, evs) && k < |ss|
  {
    if k == 0 || evs[k - 1].Crash? then 0
    else MadeHere(c, ss, evs, k - 1, id) + Made(c, ss[k - 1], evs[k - 1], id)
  }

  ghost function GoneHere(c: Config, ss: seq<State>, evs: seq<Event>, k: nat, id: JobId): nat
    requires Run(c, ss, evs) && k < |ss|
  {
    if k == 0 || evs[k - 1].Crash? then 0
    else GoneHere(c, ss, evs, k - 1, id) + Gone(c, ss[k - 1], evs[k - 1], id)
  }

  // The copies of a job, exactly: those made less those gone.
  lemma {:induction false} CopiesAddUp(c: Config, ss: seq<State>, evs: seq<Event>, k: nat, id: JobId)
    requires Run(c, ss, evs) && k < |ss|
    ensures Copies(ss[k], id) + GoneHere(c, ss, evs, k, id) == MadeHere(c, ss, evs, k, id)
  {
    if k == 0 || evs[k - 1].Crash? {
      BootCopies(c, ss[k].db, ss[k].now, ss[k].hist, id);
    } else {
      CopiesAddUp(c, ss, evs, k - 1, id);
      RunSane(c, ss, evs, k - 1);
      StepSettles(c, ss[k - 1], evs[k - 1], id);
    }
  }

  // At least once, exactly: a live job has no copy if and only if as many copies as this
  // process has made of it are gone again, and in that case the last to go was dropped:
  // no scanner has picked the job up since.
  lemma AtLeastOnce(c: Config, ss: seq<State>, evs: seq<Event>, k: nat, id: JobId)
    requires Run(c, ss, evs) && k < |ss| && Live(ss[k].db, id)
    ensures Copies(ss[k], id) == 0 <==> GoneHere(c, ss, evs, k, id) == MadeHere(c, ss, evs, k, id)
    ensures Copies(ss[k], id) == 0 ==> Dropped(c, ss, evs, k, id)
  {
    CopiesAddUp(c, ss, evs, k, id);
    BackedOrDropped(c, ss, evs, k, id);
  }
}
