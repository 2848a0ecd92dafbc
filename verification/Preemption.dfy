// Preemption over whole runs: the hand-off of a super-urgent job to the worker it
// displaced, who may be displaced, and what displacement costs.
module Preemption {
  import opened Models
  import opened Counting
  import opened Lifecycle
  import opened Ownership
  import opened Theorems
  import Supervision

  // Event Place puts `job` into the slot of worker i.
  ghost predicate Selects(s: State, t: State, ev: Event, i: nat, job: Job) {
    && ev.Place? && i < |s.ws| && |t.ws| == |s.ws|
    && s.ws[i].slot.None? && t.ws[i].slot == Some(job)
  }

  predicate Starts(ev: Event, i: nat) {
    ev.Work? && ev.i == i && ev.act.SetProcessing?
  }

  predicate Takes(ev: Event, i: nat) {
    ev == Work(i, TakeSlot)
  }

  predicate Registers(ev: Event, i: nat) {
    ev == Work(i, Register)
  }

  ghost predicate Waiting(w: Worker, job: Job) {
    w.slot == Some(job) && !Uncancellable(w.pc)
  }

  ghost predicate InHand(w: Worker, job: Job) {
    w.slot.None? && w.pc == Got(job)
  }

  lemma OwnMove(c: Config, s: State, i: nat, act: Act, job: Job)
    requires i < |s.ws| && ActEnabled(c, s, i, act)
    ensures var w, e := s.ws[i], Perform(c, s, i, act).w;
            && (Waiting(w, job) && !act.TakeSlot? ==> Waiting(e, job))
            && (Waiting(w, job) && act.TakeSlot? ==> InHand(e, job))
            && (InHand(w, job) ==> act.SetProcessing?)
  {
  }

  lemma WaitingStep(c: Config, s: State, ev: Event, i: nat, job: Job)
    requires Sane(c, s) && Enabled(c, s, ev) && !ev.Crash? && i < |s.ws|
    requires Waiting(s.ws[i], job)
    ensures var t := Fire(c, s, ev);
            |t.ws| == |s.ws| && if Takes(ev, i) then InHand(t.ws[i], job) else Waiting(t.ws[i], job)
  {
    if ev.Work? && ev.i == i { OwnMove(c, s, i, ev.act, job); }
  }

  lemma InHandStep(c: Config, s: State, ev: Event, i: nat, job: Job)
    requires Sane(c, s) && Enabled(c, s, ev) && !ev.Crash? && !Starts(ev, i) && i < |s.ws|
    requires InHand(s.ws[i], job)
    ensures |Fire(c, s, ev).ws| == |s.ws| && InHand(Fire(c, s, ev).ws[i], job)
  {
    if ev.Work? && ev.i == i { OwnMove(c, s, i, ev.act, job); }
    assert WorkerOk(s.db, s.ws[i]);
    if ev.Restart? { Supervision.RestartAccounted(c, s); }
  }

  // After a selection at event k the slot keeps the job up to event y, when the worker
  // takes it, and the worker has it in hand from then on.
  ghost predicate Delivered(ss: seq<State>, evs: seq<Event>, k: nat, m: nat, i: nat, job: Job, y: nat)
    requires k < m < |ss| == |evs| + 1
  {
    && k < y <= m
    && (forall x :: k < x <= y ==> i < |ss[x].ws| && Waiting(ss[x].ws[i], job))
    && (forall x :: y < x <= m ==> i < |ss[x].ws| && InHand(ss[x].ws[i], job))
    && (forall x :: k < x < m ==> (Takes(evs[x], i) <==> x == y))
  }

  lemma SelectionWaits(c: Config, s: State, ev: Event, i: nat, job: Job)
    requires Sane(c, s) && Enabled(c, s, ev) && Selects(s, Fire(c, s, ev), ev, i, job)
    ensures Waiting(Fire(c, s, ev).ws[i], job)
  {
    assert WorkerOk(s.db, s.ws[i]);
  }

  lemma Extend(ss: seq<State>, evs: seq<Event>, k: nat, m: nat, i: nat, job: Job, y: nat)
    requires k + 1 < m < |ss| == |evs| + 1 && Delivered(ss, evs, k, m - 1, i, job, y)
    requires i < |ss[m].ws|
    requires y < m - 1 || Takes(evs[m - 1], i) ==> InHand(ss[m].ws[i], job)
    requires y < m - 1 ==> !Takes(evs[m - 1], i)
    requires y == m - 1 && !Takes(evs[m - 1], i) ==> Waiting(ss[m].ws[i], job)
    ensures Delivered(ss, evs, k, m, i, job, if y == m - 1 && !Takes(evs[m - 1], i) then m else y)
  {
  }

  lemma Prolong(c: Config, ss: seq<State>, evs: seq<Event>, k: nat, m: nat, i: nat, job: Job, y: nat)
    requires Run(c, ss, evs) && k + 1 < m < |ss| && Sane(c, ss[m - 1])
    requires Delivered(ss, evs, k, m - 1, i, job, y)
    requires !evs[m - 1].Crash? && !Starts(evs[m - 1], i)
    ensures Delivered(ss, evs, k, m, i, job, if y == m - 1 && !Takes(evs[m - 1], i) then m else y)
  {
    assert i < |ss[m - 1].ws|;
    HandStep(c, ss[m - 1], evs[m - 1], i, job);
    Extend(ss, evs, k, m, i, job, y);
  }

  lemma {:induction false} Schedule(c: Config, ss: seq<State>, evs: seq<Event>, k: nat, m: nat, i: nat, job: Job)
    returns (y: nat)
    requires Run(c, ss, evs) && k < m < |ss| && Selects(ss[k], ss[k + 1], evs[k], i, job)
    requires forall x :: k < x < m ==> !evs[x].Crash? && !Starts(evs[x], i)
    ensures Delivered(ss, evs, k, m, i, job, y)
    decreases m
  {
    RunSane(c, ss, evs, m - 1);
    if m == k + 1 {
      SelectionWaits(c, ss[k], evs[k], i, job);
      y := m;
    } else {
      y := Schedule(c, ss, evs, k, m - 1, i, job);
      Prolong(c, ss, evs, k, m, i, job, y);
      y := if y == m - 1 && !Takes(evs[m - 1], i) then m else y;
    }
  }

  lemma HandStep(c: Config, s: State, ev: Event, i: nat, job: Job)
    requires Sane(c, s) && Enabled(c, s, ev) && !ev.Crash? && !Starts(ev, i) && i < |s.ws|
    requires Waiting(s.ws[i], job) || InHand(s.ws[i], job)
    ensures var t := Fire(c, s, ev);
            && |t.ws| == |s.ws|
            && (InHand(s.ws[i], job) ==> InHand(t.ws[i], job) && !Takes(ev, i))
            && (Waiting(s.ws[i], job) ==> if Takes(ev, i) then InHand(t.ws[i], job) else Waiting(t.ws[i], job))
  {
    if InHand(s.ws[i], job) {
      InHandStep(c, s, ev, i, job);
    } else {
      WaitingStep(c, s, ev, i, job);
    }
  }

  // If Preempt succeeds on worker i, the next job that worker starts is the
  // super-urgent one, whatever happens in between - its current job finishing, failing
  // or panicking, the worker being restarted - short of the process ending. The slot
  // is never overwritten, and exactly one look at it takes the job out.
  lemma HandOff(c: Config, ss: seq<State>, evs: seq<Event>, k: nat, m: nat, i: nat, job: Job)
    requires Run(c, ss, evs) && k < m < |evs| && Selects(ss[k], ss[k + 1], evs[k], i, job)
    requires Starts(evs[m], i)
    requires forall x :: k < x < m ==> !evs[x].Crash? && !Starts(evs[x], i)
    ensures ss[m].ws[i].pc == Got(job)
    ensures exists y: nat :: y < m && Delivered(ss, evs, k, m, i, job, y)
  {
    var y := Schedule(c, ss, evs, k, m, i, job);
    assert ss[m].ws[i].pc.Got?;
    assert y < m;
  }

  // Whom Preempt may displace: the first worker registered for a normal job whose
  // slot is free; only super-urgent jobs displace, and never a job displaced already.
  lemma JustVictim(c: Config, ss: seq<State>, evs: seq<Event>, k: nat, i: nat, job: Job)
    requires Run(c, ss, evs) && k < |evs| && Selects(ss[k], ss[k + 1], evs[k], i, job)
    ensures job.priority == PRIORITY_SUPER_URGENT
    ensures ss[k].ws[i].cur.Some? && ss[k].ws[i].cur.value.priority == PRIORITY_NORMAL
    ensures Registered(ss[k].ws[i].pc) && !ss[k].ws[i].ctx.Cancelled?
    ensures forall j :: 0 <= j < i ==> !Eligible(ss[k].ws[j])
    ensures ss[k].hs[evs[k].t] == Created(job) && ss[k + 1].hs[evs[k].t] == Replied
    ensures ss[k + 1].hist.preempts == ss[k].hist.preempts + 1
  {
    RunSane(c, ss, evs, k);
    assert WorkerOk(ss[k].db, ss[k].ws[i]);
    assert ss[k + 1] == FireHttp(c, ss[k], evs[k]);
  }

  // A registration that cannot be selected (again): its slot is filled, or it is over.
  ghost predicate Spent(s: State, i: nat) {
    i < |s.ws| && (s.ws[i].slot.Some? || s.ws[i].cur.None?)
  }

  lemma SpentElsewhere(c: Config, s: State, ev: Event, i: nat)
    requires Sane(c, s) && Enabled(c, s, ev) && Spent(s, i) && !ev.Crash? && !(ev.Work? && ev.i == i)
    ensures Spent(Fire(c, s, ev), i)
  {
  }

  lemma SpentStep(c: Config, s: State, ev: Event, i: nat)
    requires Sane(c, s) && Enabled(c, s, ev) && Spent(s, i) && !ev.Crash? && !Registers(ev, i)
    ensures Spent(Fire(c, s, ev), i)
  {
    if ev.Work? && ev.i == i {
      assert WorkerOk(s.db, s.ws[i]);
      SpentMove(c, s, i, ev.act);
    } else {
      SpentElsewhere(c, s, ev, i);
    }
  }

  lemma SpentMove(c: Config, s: State, i: nat, act: Act)
    requires i < |s.ws| && ActEnabled(c, s, i, act) && !act.Register? && WorkerOk(s.db, s.ws[i])
    requires s.ws[i].slot.Some? || s.ws[i].cur.None?
    ensures var e := Perform(c, s, i, act).w; e.slot.Some? || e.cur.None?
  {
  }

  lemma {:induction false} SpentUntil(c: Config, ss: seq<State>, evs: seq<Event>, k: nat, m: nat, i: nat)
    requires Run(c, ss, evs) && k <= m < |ss| && Spent(ss[k], i)
    requires forall x :: k <= x < m ==> !evs[x].Crash? && !Registers(evs[x], i)
    ensures Spent(ss[m], i)
    decreases m
  {
    if k < m {
      SpentUntil(c, ss, evs, k, m - 1, i);
      RunSane(c, ss, evs, m - 1);
      SpentStep(c, ss[m - 1], evs[m - 1], i);
    }
  }

  // Each registration is selected at most once: between two selections of a worker it
  // registers for another job (or the process restarts).
  lemma SelectedOnce(c: Config, ss: seq<State>, evs: seq<Event>, k: nat, m: nat, i: nat, a: Job, b: Job)
    requires Run(c, ss, evs) && k < m < |evs|
    requires Selects(ss[k], ss[k + 1], evs[k], i, a) && Selects(ss[m], ss[m + 1], evs[m], i, b)
    ensures exists x :: k < x < m && (evs[x].Crash? || Registers(evs[x], i))
  {
    if forall x :: k < x < m ==> !evs[x].Crash? && !Registers(evs[x], i) {
      SpentUntil(c, ss, evs, k + 1, m, i);
      JustVictim(c, ss, evs, m, i, b);
    }
  }

  // ---- penalty-free requeues ------------------------------------------------------

  // Cancelled and not yet requeued.
  predicate Armed(w: Worker) {
    w.ctx.Cancelled? && (w.pc.Running? || w.pc.Erred? || w.pc.Requeuing?)
  }

  function ArmedPred(): Worker -> bool { (w: Worker) => Armed(w) }

  ghost predicate Covered(s: State) {
    s.hist.requeues + Count(s.ws, ArmedPred()) <= s.hist.preempts
  }

  lemma ArmedMove(c: Config, s: State, i: nat, act: Act)
    requires i < |s.ws| && ActEnabled(c, s, i, act) && WorkerOk(s.db, s.ws[i])
    ensures var e := Perform(c, s, i, act); Bit(Armed(e.w)) + Bit(e.requeued) <= Bit(Armed(s.ws[i]))
  {
  }

  lemma CoveredWork(c: Config, s: State, i: nat, act: Act)
    requires Sane(c, s) && i < |s.ws| && ActEnabled(c, s, i, act) && Covered(s)
    ensures Covered(Apply(c, s, i, Perform(c, s, i, act)))
  {
    assert WorkerOk(s.db, s.ws[i]);
    ArmedMove(c, s, i, act);
    CountUpdate(s.ws, i, Perform(c, s, i, act).w, ArmedPred());
  }

  lemma CoveredPlace(c: Config, s: State, ev: Event)
    requires Enabled(c, s, ev) && ev.Place? && Covered(s)
    ensures Covered(FireHttp(c, s, ev))
  {
    var t := FireHttp(c, s, ev);
    if t.ws != s.ws {
      var v := Victim(s.ws).value;
      CountUpdate(s.ws, v, t.ws[v], ArmedPred());
    }
  }

  lemma CoveredRestart(c: Config, s: State)
    requires Enabled(c, s, Restart) && Covered(s)
    ensures Covered(FireEnv(c, s, Restart))
  {
    var id := s.crew.sup.id;
    CountUpdate(s.ws, id, s.ws[id].(pc := Top), ArmedPred());
  }

  lemma CoveredCrash(c: Config, s: State)
    requires Covered(s)
    ensures Covered(FireEnv(c, s, Crash))
  {
    CountNone(FireEnv(c, s, Crash).ws, ArmedPred());
  }

  lemma CoveredOther(c: Config, s: State, ev: Event)
    requires Enabled(c, s, ev) && !ev.Work? && !ev.Place? && !ev.Restart? && !ev.Crash?
    ensures var t := Fire(c, s, ev);
            t.ws == s.ws && t.hist.requeues == s.hist.requeues && t.hist.preempts == s.hist.preempts
  {
  }

  lemma CoveredStep(c: Config, s: State, ev: Event)
    requires Sane(c, s) && Enabled(c, s, ev) && Covered(s)
    ensures Covered(Fire(c, s, ev))
  {
    match ev {
      case Work(i, act) => CoveredWork(c, s, i, act);
      case Place(_) => CoveredPlace(c, s, ev);
      case Restart => CoveredRestart(c, s);
      case Crash => CoveredCrash(c, s);
      case _ => CoveredOther(c, s, ev);
    }
  }

  lemma {:induction false} RunCovered(c: Config, ss: seq<State>, evs: seq<Event>, k: nat)
    requires Run(c, ss, evs) && k < |ss|
    ensures Covered(ss[k])
  {
    if k == 0 {
      CountNone(ss[0].ws, ArmedPred());
    } else {
      RunCovered(c, ss, evs, k - 1);
      RunSane(c, ss, evs, k - 1);
      CoveredStep(c, ss[k - 1], evs[k - 1]);
    }
  }

  // There are never more penalty-free requeues than successful preemptions.
  lemma RequeuesJustified(c: Config, ss: seq<State>, evs: seq<Event>, k: nat)
    requires Run(c, ss, evs) && k < |ss|
    ensures ss[k].hist.requeues <= ss[k].hist.preempts
  {
    RunCovered(c, ss, evs, k);
  }

  // A penalty-free requeue happens only to a normal job whose registration was
  // cancelled by a super-urgent job now waiting in that worker's slot.
  lemma RequeueHasCause(c: Config, ss: seq<State>, evs: seq<Event>, k: nat)
    requires Run(c, ss, evs) && k < |evs| && ss[k + 1].hist.requeues > ss[k].hist.requeues
    ensures evs[k].Work?
    ensures var w := ss[k].ws[evs[k].i];
            && w.pc.Requeuing? && w.pc.job.priority == PRIORITY_NORMAL && w.ctx.Cancelled?
            && w.slot.Some? && w.slot.value.priority == PRIORITY_SUPER_URGENT
  {
    RunSane(c, ss, evs, k);
    assert ss[k + 1] == Fire(c, ss[k], evs[k]);
    if evs[k].Work? { assert WorkerOk(ss[k].db, ss[k].ws[evs[k].i]); }
  }
}
