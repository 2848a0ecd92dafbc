// The order in which a worker makes its calls, whatever runs beside it: the loop, the
// polling pass, processJob, and Ack, Nack and Requeue statement by statement.
module Calls {
  import opened Models
  import opened Tables
  import opened Lifecycle
  import opened Ownership
  import opened Theorems
  import Supervision
  import opened Preemption

  // ---- what may come next ----------------------------------------------------------------

  // After call a, made in state s, the next call of the same worker is b.
  predicate Follows(s: State, i: nat, a: Act, b: Act)
    requires i < |s.ws|
  {
    match a
    case Loop => if s.crew.stopped then b == Die else b == TakeSlot
    case TakeSlot => if s.ws[i].slot.Some? then b.SetProcessing? else b == PopPriority
    case PopPriority => if s.q.prio != [] then b.SetProcessing? else b == CheckToken
    case CheckToken => if s.tokens > 0 then b.ReceiveRate? else b.ReceiveFifo?
    case ReceiveRate(hit) => if hit then b == Spend else b.ReceiveFifo?
    case Spend => if s.tokens > 0 then b.SetProcessing? else b == Spend
    case ReceiveFifo(hit) => if hit then b.SetProcessing? else b.Rest?
    case Rest(again) => if again then b == PopPriority else b == Loop
    case SetProcessing(_) => b == Register
    case Register => b.Process?
    case Process(Success) => b.Ack?
    case Process(Error) => b == Judge
    case Process(Panic) => b == Cleanup
    case Judge => if s.ws[i].ctx == Cancelled then b.RequeueWrite? else b.NackRead?
    case Ack(_) => b == Cleanup
    case NackRead(up) => if up then b.NackWrite? else b == Cleanup
    case NackWrite(up) =>
      if up && s.ws[i].pc.NackWriting? && s.ws[i].pc.retries + 1 < s.ws[i].pc.maxRetries
      then b.NackEnqueue? else b == Cleanup
    case NackEnqueue(_) => b == Cleanup
    case RequeueWrite(up) => if up then b.RequeueRead? else b == Cleanup
    case RequeueRead(up) => if up then b.RequeueEnqueue? else b == Cleanup
    case RequeueEnqueue(_) => b == Cleanup
    case Cleanup => if s.ws[i].pc.Panicked? then b == Die else b == Loop
    case Die => b == Loop
    case Deadline => true
  }

  // A call of worker i; the expiry of a deadline is none.
  predicate Calls(ev: Event, i: nat) {
    ev.Work? && ev.i == i && !ev.act.Deadline?
  }

  ghost predicate NoCall(evs: seq<Event>, i: nat, m: nat, x: nat) {
    forall z :: m < z < x && z < |evs| ==> !evs[z].Crash? && !Calls(evs[z], i)
  }

  // Nothing but an expiry, and for a dead worker its restart, between calls m and x.
  ghost predicate NextCall(evs: seq<Event>, i: nat, m: nat, x: nat) {
    m < x < |evs| && Calls(evs[m], i) && Calls(evs[x], i) && NoCall(evs, i, m, x)
  }

  predicate SamePlace(a: Pc, b: Pc) {
    a == b || (a.Dead? && b.Top?)
  }

  // The calls a worker may make where it stands.
  predicate Permits(pc: Pc, b: Act) {
    match pc
    case Top => b == Loop
    case CheckSlot => b == TakeSlot
    case PollPriority => b == PopPriority
    case PollRate => b == CheckToken
    case TakeRate => b.ReceiveRate?
    case Spin(_) => b == Spend
    case PollFifo => b.ReceiveFifo?
    case Nap => b.Rest?
    case Got(_) => b.SetProcessing?
    case Ready(_) => b == Register
    case Running(_) => b.Process?
    case Erred(_) => b == Judge
    case Acking(_) => b.Ack?
    case Nacking(_) => b.NackRead?
    case NackWriting(_, _, _) => b.NackWrite?
    case NackEnqueuing(_) => b.NackEnqueue?
    case Requeuing(_) => b.RequeueWrite?
    case RequeueReading(_) => b.RequeueRead?
    case RequeueEnqueuing(_) => b.RequeueEnqueue?
    case Finished => b == Cleanup
    case Panicked => b == Cleanup
    case Exiting => b == Die
    case Dead => b == Loop
  }

  lemma EnabledIsPermitted(c: Config, s: State, i: nat, b: Act)
    requires i < |s.ws| && ActEnabled(c, s, i, b) && !b.Deadline?
    ensures Permits(s.ws[i].pc, b)
  {
  }

  lemma PollFollows(c: Config, s: State, i: nat, a: Act, b: Act)
    requires i < |s.ws| && ActEnabled(c, s, i, a) && Polling(a) && Permits(Poll(s, s.ws[i], a).w.pc, b)
    ensures Follows(s, i, a, b)
  {
  }

  lemma ExecuteFollows(c: Config, s: State, i: nat, a: Act, b: Act)
    requires i < |s.ws| && ActEnabled(c, s, i, a) && !Polling(a) && !Finalizing(a) && !a.Deadline?
    requires Permits(Execute(s, s.ws[i], a).w.pc, b)
    ensures Follows(s, i, a, b)
  {
  }

  lemma FinalizeFollows(c: Config, s: State, i: nat, a: Act, b: Act)
    requires i < |s.ws| && ActEnabled(c, s, i, a) && Finalizing(a) && s.ws[i].pc.job.id in s.db
    requires Permits(Finalize(s, s.ws[i], a).w.pc, b)
    ensures Follows(s, i, a, b)
  {
  }

  lemma PerformFollows(c: Config, s: State, i: nat, a: Act, b: Act)
    requires Base(c, s) && i < |s.ws| && ActEnabled(c, s, i, a) && !a.Deadline?
    requires Permits(Perform(c, s, i, a).w.pc, b)
    ensures Follows(s, i, a, b)
  {
    assert WorkerOk(s.db, s.ws[i]);
    if Polling(a) { PollFollows(c, s, i, a, b); }
    else if Finalizing(a) { FinalizeFollows(c, s, i, a, b); }
    else { ExecuteFollows(c, s, i, a, b); }
  }

  // Between its calls a worker stays where it is.
  lemma StaysPut(c: Config, s: State, ev: Event, i: nat)
    requires Sane(c, s) && Enabled(c, s, ev) && !ev.Crash? && !Calls(ev, i) && i < |s.ws|
    ensures i < |Fire(c, s, ev).ws| && SamePlace(s.ws[i].pc, Fire(c, s, ev).ws[i].pc)
  {
    if ev.Restart? { Supervision.RestartAccounted(c, s); }
  }

  // Worker i has been put at `pc` and has not called since.
  ghost predicate Waits(s: State, i: nat, pc: Pc) {
    i < |s.ws| && SamePlace(pc, s.ws[i].pc)
  }

  lemma WaitsOn(c: Config, s: State, ev: Event, i: nat, pc: Pc)
    requires Sane(c, s) && Enabled(c, s, ev) && !ev.Crash? && !Calls(ev, i) && Waits(s, i, pc)
    ensures Waits(Fire(c, s, ev), i, pc)
  {
    StaysPut(c, s, ev, i);
  }

  lemma CallMade(c: Config, s: State, ev: Event, i: nat)
    requires Enabled(c, s, ev) && Calls(ev, i)
    ensures i < |s.ws| && Waits(Fire(c, s, ev), i, Perform(c, s, i, ev.act).w.pc)
  {
  }

  lemma {:induction false} Lingers(c: Config, ss: seq<State>, evs: seq<Event>, m: nat, x: nat, i: nat)
    requires Run(c, ss, evs) && m < x < |ss| && Calls(evs[m], i) && NoCall(evs, i, m, x)
    ensures i < |ss[m].ws| && Waits(ss[x], i, Perform(c, ss[m], i, evs[m].act).w.pc)
    decreases x
  {
    CallMade(c, ss[m], evs[m], i);
    if m + 1 < x {
      Lingers(c, ss, evs, m, x - 1, i);
      RunSane(c, ss, evs, x - 1);
      WaitsOn(c, ss[x - 1], evs[x - 1], i, Perform(c, ss[m], i, evs[m].act).w.pc);
    }
  }

  // In every run each worker makes its calls in the order of the source.
  lemma CallsInOrder(c: Config, ss: seq<State>, evs: seq<Event>, i: nat, m: nat, x: nat)
    requires Run(c, ss, evs) && NextCall(evs, i, m, x)
    ensures i < |ss[m].ws| && Follows(ss[m], i, evs[m].act, evs[x].act)
  {
    RunSane(c, ss, evs, m);
    Lingers(c, ss, evs, m, x, i);
    EnabledIsPermitted(c, ss[x], i, evs[x].act);
    PerformFollows(c, ss[m], i, evs[m].act, evs[x].act);
  }

  // No living worker is ever without a next call: it takes what an open channel holds,
  // enqueues where there is room, and every statement may succeed.
  lemma AlwaysACall(c: Config, s: State, i: nat) returns (act: Act)
    requires i < |s.ws| && !s.ws[i].pc.Dead?
    ensures !act.Deadline? && ActEnabled(c, s, i, act)
    ensures act.ReceiveFifo? ==> act.hit == (s.q.fifo != [])
    ensures act.ReceiveRate? ==> act.hit == (s.q.rate != [])
    ensures act.NackEnqueue? || act.RequeueEnqueue? ==> act.fits == (|s.q.fifo| < c.fifoCap)
    ensures act.SetProcessing? ==> act.up
    ensures act.Ack? || act.NackRead? || act.NackWrite? || act.RequeueWrite? || act.RequeueRead? ==> act.up
  {
    var room := |s.q.fifo| < c.fifoCap;
    act := match s.ws[i].pc
      case Top => Loop
      case CheckSlot => TakeSlot
      case PollPriority => PopPriority
      case PollRate => CheckToken
      case TakeRate => ReceiveRate(s.q.rate != [])
      case Spin(_) => Spend
      case PollFifo => ReceiveFifo(s.q.fifo != [])
      case Nap => Rest(true)
      case Got(_) => SetProcessing(true)
      case Ready(_) => Register
      case Running(_) => Process(Success)
      case Erred(_) => Judge
      case Acking(_) => Ack(true)
      case Nacking(_) => NackRead(true)
      case NackWriting(_, _, _) => NackWrite(true)
      case NackEnqueuing(_) => NackEnqueue(room)
      case Requeuing(_) => RequeueWrite(true)
      case RequeueReading(_) => RequeueRead(true)
      case RequeueEnqueuing(_) => RequeueEnqueue(room)
      case Finished => Cleanup
      case Panicked => Cleanup
      case Exiting => Die
      case Dead => Die;
  }

  // Nothing about the outside is taken for granted: the processor may succeed, fail or
  // panic, a running context may expire, every statement and enqueue may fail, and a
  // receive may see nothing.
  lemma AnythingMayHappen(c: Config, s: State, i: nat, verdict: Verdict, up: bool)
    requires i < |s.ws|
    ensures var w := s.ws[i];
      && (w.pc.Running? ==> ActEnabled(c, s, i, Process(verdict)))
      && (ActEnabled(c, s, i, Deadline) <==> w.ctx == Alive && (w.pc.Finished? || w.pc.Panicked? || InProcess(w.pc)))
      && (w.pc.Nap? ==> ActEnabled(c, s, i, Rest(up)))
      && (w.pc.TakeRate? ==> ActEnabled(c, s, i, ReceiveRate(false)))
      && (w.pc.PollFifo? ==> ActEnabled(c, s, i, ReceiveFifo(false)))
      && (w.pc.Got? ==> ActEnabled(c, s, i, SetProcessing(up)))
      && (w.pc.Acking? ==> ActEnabled(c, s, i, Ack(up)))
      && (w.pc.Nacking? ==> ActEnabled(c, s, i, NackRead(up)))
      && (w.pc.NackWriting? ==> ActEnabled(c, s, i, NackWrite(up)))
      && (w.pc.NackEnqueuing? ==> ActEnabled(c, s, i, NackEnqueue(false)))
      && (w.pc.Requeuing? ==> ActEnabled(c, s, i, RequeueWrite(up)))
      && (w.pc.RequeueReading? ==> ActEnabled(c, s, i, RequeueRead(up)))
      && (w.pc.RequeueEnqueuing? ==> ActEnabled(c, s, i, RequeueEnqueue(false)))
  {
  }

  // In processJob after the registration and before the deferred cleanup.
  predicate InProcess(pc: Pc) {
    pc.Running? || pc.Erred? || pc.Acking? || pc.Nacking? || pc.NackWriting? || pc.NackEnqueuing?
    || pc.Requeuing? || pc.RequeueReading? || pc.RequeueEnqueuing?
  }

  // ---- the job in hand -------------------------------------------------------------------

  function Hand(w: Worker): Option<Job> {
    if Carries(w.pc) then Some(w.pc.job) else None
  }

  // The job a worker is answerable for after call a: taken from its slot or from the head
  // of a queue, kept through the calls of processJob, and given up at its end.
  function HandAfter(s: State, i: nat, a: Act): Option<Job>
    requires i < |s.ws|
  {
    var h := Hand(s.ws[i]);
    match a
    case TakeSlot => s.ws[i].slot
    case PopPriority => if s.q.prio == [] then None else Some(s.q.prio[0])
    case ReceiveRate(hit) => if hit && s.q.rate != [] then Some(s.q.rate[0]) else None
    case ReceiveFifo(hit) => if hit && s.q.fifo != [] then Some(s.q.fifo[0]) else None
    case Process(Panic) => None
    case Ack(_) => None
    case NackRead(up) => if up then h else None
    case NackWrite(up) =>
      if up && s.ws[i].pc.NackWriting? && s.ws[i].pc.retries + 1 < s.ws[i].pc.maxRetries then h else None
    case NackEnqueue(_) => None
    case RequeueWrite(up) => if up then h else None
    case RequeueRead(up) => if up then h else None
    case RequeueEnqueue(_) => None
    case _ => h
  }

  lemma HandPolls(c: Config, s: State, i: nat, a: Act)
    requires i < |s.ws| && ActEnabled(c, s, i, a) && Polling(a)
    ensures Hand(Poll(s, s.ws[i], a).w) == HandAfter(s, i, a)
  {
  }

  lemma HandWorks(c: Config, s: State, i: nat, a: Act)
    requires i < |s.ws| && ActEnabled(c, s, i, a) && !Polling(a) && !Finalizing(a)
    ensures Hand(Execute(s, s.ws[i], a).w) == HandAfter(s, i, a)
  {
  }

  lemma HandFinishes(c: Config, s: State, i: nat, a: Act)
    requires i < |s.ws| && ActEnabled(c, s, i, a) && Finalizing(a) && s.ws[i].pc.job.id in s.db
    ensures Hand(Finalize(s, s.ws[i], a).w) == HandAfter(s, i, a)
  {
  }

  lemma HandMove(c: Config, s: State, i: nat, a: Act)
    requires Base(c, s) && i < |s.ws| && ActEnabled(c, s, i, a)
    ensures Hand(Perform(c, s, i, a).w) == HandAfter(s, i, a)
    ensures a == NackRead(true) ==>
      var pc := s.ws[i].pc;
      Perform(c, s, i, a).w.pc == NackWriting(pc.job, s.db[pc.job.id].retries, s.db[pc.job.id].maxRetries)
  {
    assert WorkerOk(s.db, s.ws[i]);
    if Polling(a) { HandPolls(c, s, i, a); }
    else if Finalizing(a) { HandFinishes(c, s, i, a); }
    else { HandWorks(c, s, i, a); }
  }

  lemma HandElsewhere(c: Config, s: State, ev: Event, i: nat)
    requires Sane(c, s) && Enabled(c, s, ev) && !ev.Crash? && i < |s.ws| && !(ev.Work? && ev.i == i)
    ensures i < |Fire(c, s, ev).ws| && Hand(Fire(c, s, ev).ws[i]) == Hand(s.ws[i])
  {
    if ev.Restart? { Supervision.RestartAccounted(c, s); }
  }

  // The story of each worker's hand in every run; and what a nack goes on is what the row
  // said when it was read.
  lemma HandStory(c: Config, ss: seq<State>, evs: seq<Event>, k: nat, i: nat)
    requires Run(c, ss, evs) && k < |evs| && i < c.workers
    ensures i < |ss[k].ws| && i < |ss[k + 1].ws|
    ensures Hand(ss[k + 1].ws[i]) ==
      if evs[k].Crash? then None
      else if evs[k].Work? && evs[k].i == i then HandAfter(ss[k], i, evs[k].act)
      else Hand(ss[k].ws[i])
    ensures evs[k] == Work(i, NackRead(true)) ==>
      var job := ss[k].ws[i].pc.job;
      ss[k + 1].ws[i].pc == NackWriting(job, ss[k].db[job.id].retries, ss[k].db[job.id].maxRetries)
  {
    RunSane(c, ss, evs, k);
    assert WorkerOk(ss[k].db, ss[k].ws[i]);
    if evs[k].Work? && evs[k].i == i {
      HandMove(c, ss[k], i, evs[k].act);
    } else if !evs[k].Crash? {
      HandElsewhere(c, ss[k], evs[k], i);
    }
  }

  // ---- preemption costs no attempt ---------------------------------------------------------

  // A worker's judgement of an error: requeued exactly when its context was cancelled,
  // nacked otherwise.
  lemma JudgesByContext(c: Config, ss: seq<State>, evs: seq<Event>, k: nat, i: nat)
    requires Run(c, ss, evs) && k < |evs| && evs[k] == Work(i, Judge)
    ensures var w, pc := ss[k].ws[i], ss[k + 1].ws[i].pc;
            && (pc == Requeuing(w.pc.job) <==> w.ctx == Cancelled)
            && (pc == Nacking(w.pc.job) <==> w.ctx != Cancelled)
  {
  }

  // Cancelled in time: by the end of this registration the worker has not begun a nack.
  predicate Spared(w: Worker) {
    w.pc.Top? || w.pc.Exiting? || w.pc.Dead? || w.pc.CheckSlot? || Uncancellable(w.pc) || w.cur.None?
    || (w.ctx.Cancelled? && !w.pc.Nacking? && !w.pc.NackWriting? && !w.pc.NackEnqueuing?)
  }

  lemma SparedMove(c: Config, s: State, i: nat, act: Act)
    requires i < |s.ws| && ActEnabled(c, s, i, act) && WorkerOk(s.db, s.ws[i]) && Spared(s.ws[i]) && act != Register
    ensures Spared(Perform(c, s, i, act).w)
    ensures !act.NackRead? && !act.NackWrite? && !act.NackEnqueue?
  {
  }

  lemma SparedElsewhere(c: Config, s: State, ev: Event, i: nat)
    requires Sane(c, s) && Enabled(c, s, ev) && !ev.Crash? && i < |s.ws| && Spared(s.ws[i]) && !(ev.Work? && ev.i == i)
    ensures i < |Fire(c, s, ev).ws| && Spared(Fire(c, s, ev).ws[i])
  {
    assert WorkerOk(s.db, s.ws[i]);
    if ev.Restart? { Supervision.RestartAccounted(c, s); }
  }

  lemma SparedStep(c: Config, s: State, ev: Event, i: nat)
    requires Sane(c, s) && Enabled(c, s, ev) && !ev.Crash? && ev != Work(i, Register) && i < |s.ws| && Spared(s.ws[i])
    ensures i < |Fire(c, s, ev).ws| && Spared(Fire(c, s, ev).ws[i])
    ensures ev.Work? && ev.i == i ==> !ev.act.NackRead? && !ev.act.NackWrite? && !ev.act.NackEnqueue?
  {
    if ev.Work? && ev.i == i {
      assert WorkerOk(s.db, s.ws[i]);
      SparedMove(c, s, i, ev.act);
    } else {
      SparedElsewhere(c, s, ev, i);
    }
  }

  lemma {:induction false} SparedOn(c: Config, ss: seq<State>, evs: seq<Event>, k: nat, m: nat, i: nat)
    requires Run(c, ss, evs) && k <= m < |ss| && i < |ss[k].ws| && Spared(ss[k].ws[i])
    requires forall x :: k <= x < m ==> !evs[x].Crash? && evs[x] != Work(i, Register)
    ensures i < |ss[m].ws| && Spared(ss[m].ws[i])
    decreases m
  {
    if k < m {
      SparedOn(c, ss, evs, k, m - 1, i);
      RunSane(c, ss, evs, m - 1);
      SparedStep(c, ss[m - 1], evs[m - 1], i);
    }
  }

  // A job whose worker was preempted while the processor ran (or before its error was
  // judged) is never nacked for it: the worker makes no call of Nack before its next
  // registration, so the displaced attempt does not count.
  lemma PreemptedNeverNacked(c: Config, ss: seq<State>, evs: seq<Event>, k: nat, m: nat, i: nat, job: Job)
    requires Run(c, ss, evs) && k < m < |evs| && Selects(ss[k], ss[k + 1], evs[k], i, job)
    requires ss[k].ws[i].ctx == Alive && (ss[k].ws[i].pc.Running? || ss[k].ws[i].pc.Erred?)
    requires forall x :: k < x < m ==> !evs[x].Crash? && evs[x] != Work(i, Register)
    ensures evs[m].Work? && evs[m].i == i ==> !evs[m].act.NackRead? && !evs[m].act.NackWrite?
    ensures evs[m] == Work(i, Judge) ==> ss[m + 1].ws[i].pc == Requeuing(ss[m].ws[i].pc.job)
  {
    CancelledBySelection(c, ss, evs, k, i, job);
    SparedOn(c, ss, evs, k + 1, m, i);
    RunSane(c, ss, evs, m);
    assert WorkerOk(ss[m].db, ss[m].ws[i]);
    if evs[m].Work? && evs[m].i == i && evs[m].act != Register {
      SparedMove(c, ss[m], i, evs[m].act);
    }
    if evs[m] == Work(i, Judge) { JudgesByContext(c, ss, evs, m, i); }
  }

  lemma CancelledBySelection(c: Config, ss: seq<State>, evs: seq<Event>, k: nat, i: nat, job: Job)
    requires Run(c, ss, evs) && k < |evs| && Selects(ss[k], ss[k + 1], evs[k], i, job)
    requires ss[k].ws[i].ctx == Alive && (ss[k].ws[i].pc.Running? || ss[k].ws[i].pc.Erred?)
    ensures Spared(ss[k + 1].ws[i])
  {
    assert ss[k + 1] == FireHttp(c, ss[k], evs[k]);
  }

  // ---- Stop ends the workers -----------------------------------------------------------------

  // Past the start of its last job, if any: what is left is to finish it and to exit.
  predicate Retiring(pc: Pc) {
    !pc.CheckSlot? && !pc.PollPriority? && !pc.PollRate? && !pc.TakeRate? && !pc.Spin? && !pc.PollFifo?
    && !pc.Nap? && !pc.Got?
  }

  lemma RetiringMove(c: Config, s: State, i: nat, act: Act)
    requires i < |s.ws| && ActEnabled(c, s, i, act) && s.crew.stopped
    ensures Retiring(s.ws[i].pc) ==> Retiring(Perform(c, s, i, act).w.pc) && !act.SetProcessing?
    ensures act.SetProcessing? || act.Loop? ==> Retiring(Perform(c, s, i, act).w.pc)
    ensures act.Loop? ==> Perform(c, s, i, act).w.pc == Exiting
  {
  }

  ghost predicate Retired(s: State, i: nat) {
    s.crew.stopped && i < |s.ws| && Retiring(s.ws[i].pc)
  }

  lemma RetiringStep(c: Config, s: State, ev: Event, i: nat)
    requires Sane(c, s) && Enabled(c, s, ev) && !ev.Crash? && Retired(s, i)
    ensures Retired(Fire(c, s, ev), i)
  {
    if ev.Work? && ev.i == i {
      RetiringMove(c, s, i, ev.act);
    } else {
      RetiringElsewhere(c, s, ev, i);
    }
  }

  lemma RetiringElsewhere(c: Config, s: State, ev: Event, i: nat)
    requires Sane(c, s) && Enabled(c, s, ev) && !ev.Crash? && Retired(s, i) && !(ev.Work? && ev.i == i)
    ensures Retired(Fire(c, s, ev), i)
  {
    if !Calls(ev, i) { StaysPut(c, s, ev, i); }
    StoppedStep(c, s, ev);
  }

  lemma StoppedStep(c: Config, s: State, ev: Event)
    requires Enabled(c, s, ev) && !ev.Crash? && s.crew.stopped
    ensures Fire(c, s, ev).crew.stopped
  {
  }

  lemma {:induction false} StaysStopped(c: Config, ss: seq<State>, evs: seq<Event>, k: nat, m: nat)
    requires Run(c, ss, evs) && k <= m < |ss| && ss[k].crew.stopped
    requires forall x :: k <= x < m ==> !evs[x].Crash?
    ensures ss[m].crew.stopped
    decreases m
  {
    if k < m {
      StaysStopped(c, ss, evs, k, m - 1);
      StoppedStep(c, ss[m - 1], evs[m - 1]);
    }
  }

  lemma {:induction false} StaysRetired(c: Config, ss: seq<State>, evs: seq<Event>, k: nat, m: nat, i: nat)
    requires Run(c, ss, evs) && k <= m < |ss| && Retired(ss[k], i)
    requires forall x :: k <= x < m ==> !evs[x].Crash?
    ensures Retired(ss[m], i)
    decreases m
  {
    if k < m {
      StaysRetired(c, ss, evs, k, m - 1, i);
      RunSane(c, ss, evs, m - 1);
      RetiringStep(c, ss[m - 1], evs[m - 1], i);
    }
  }

  lemma LastStart(c: Config, s: State, ev: Event, i: nat)
    requires Enabled(c, s, ev) && s.crew.stopped && (ev == Work(i, Loop) || Starts(ev, i))
    ensures Retired(Fire(c, s, ev), i)
    ensures ev == Work(i, Loop) ==> Fire(c, s, ev).ws[i].pc == Exiting
  {
    RetiringMove(c, s, i, ev.act);
  }

  // Once the pool is stopped each worker starts at most one more job, and the next time it
  // comes round its loop it leaves and starts none any more, restarts included.
  lemma StopEndsWorkers(c: Config, ss: seq<State>, evs: seq<Event>, k: nat, m: nat, i: nat)
    requires Run(c, ss, evs) && k <= m < |evs| && ss[k].crew.stopped
    requires forall x :: k <= x <= m ==> !evs[x].Crash?
    requires evs[m] == Work(i, Loop) || Starts(evs[m], i)
    ensures evs[m] == Work(i, Loop) ==> ss[m + 1].ws[i].pc == Exiting
    ensures forall x :: m < x < |evs| && (forall y :: m < y < x ==> !evs[y].Crash?) ==> !Starts(evs[x], i)
  {
    StaysStopped(c, ss, evs, k, m);
    LastStart(c, ss[m], evs[m], i);
    forall x | m < x < |evs| && (forall y :: m < y < x ==> !evs[y].Crash?) ensures !Starts(evs[x], i) {
      StaysRetired(c, ss, evs, m + 1, x, i);
      if Starts(evs[x], i) { RetiringMove(c, ss[x], i, evs[x].act); }
    }
  }
}
