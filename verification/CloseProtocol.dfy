// MemoryQueue under any number of concurrent Enqueue, Close and Dequeue calls. The
// job channel is sent on outside the mutex; the WaitGroup is what keeps a send from
// meeting a closed channel.
module CloseProtocol {
  import opened Models
  import opened Counting

  datatype Enqueuer =
    | Entering(job: Job)      // before the mutex region
    | Sending(job: Job)       // counted in the WaitGroup, inside the select
    | Releasing(ok: bool)     // deferred wg.Done pending
    | Returned(ok: bool)

  datatype Closer =
    | Calling                 // before the mutex region
    | Waiting                 // closed set, in wg.Wait
    | Closing                 // past wg.Wait, before close(q.jobs)
    | Finished

  // panicked: a send on, or a close of, an already closed channel has happened.
  datatype State = State(
    cap: nat, closed: bool, doneClosed: bool, wg: int,
    jobs: seq<Job>, jobsClosed: bool, panicked: bool,
    es: seq<Enqueuer>, cs: seq<Closer>,
    accepted: seq<Job>, delivered: seq<Job>)

  datatype Event =
    | CallEnqueue(job: Job) | CallClose
    | Admit(t: nat)           // lock; check closed; wg.Add(1); unlock
    | Send(t: nat) | SeeDone(t: nat) | TimeOut(t: nat)
    | Release(t: nat)         // wg.Done
    | Shut(t: nat)            // lock; check closed; set it; close(q.done); unlock
    | PassWait(t: nat)        // wg.Wait returns
    | CloseJobs(t: nat)
    | Receive                 // a Dequeue takes the head
    | ReceiveNil              // a Dequeue learns that the channel is closed and empty

  predicate Init(s: State) {
    s == State(s.cap, false, false, 0, [], false, false, [], [], [], [])
  }

  predicate Enabled(s: State, ev: Event) {
    match ev
    case CallEnqueue(_) => true
    case CallClose => true
    case Admit(t) => t < |s.es| && s.es[t].Entering?
    // a closed channel makes the send case ready (and panic) whatever its length
    case Send(t) => t < |s.es| && s.es[t].Sending? && (|s.jobs| < s.cap || s.jobsClosed)
    case SeeDone(t) => t < |s.es| && s.es[t].Sending? && s.doneClosed
    case TimeOut(t) => t < |s.es| && s.es[t].Sending?
    case Release(t) => t < |s.es| && s.es[t].Releasing?
    case Shut(t) => t < |s.cs| && s.cs[t].Calling?
    case PassWait(t) => t < |s.cs| && s.cs[t].Waiting? && s.wg == 0
    case CloseJobs(t) => t < |s.cs| && s.cs[t].Closing?
    case Receive => s.jobs != []
    case ReceiveNil => s.jobs == [] && s.jobsClosed
  }

  function Fire(s: State, ev: Event): State
    requires Enabled(s, ev)
  {
    match ev
    case CallEnqueue(job) => s.(es := s.es + [Entering(job)])
    case CallClose => s.(cs := s.cs + [Calling])
    case Admit(t) =>
      if s.closed then s.(es := s.es[t := Returned(false)])
      else s.(wg := s.wg + 1, es := s.es[t := Sending(s.es[t].job)])
    case Send(t) =>
      if s.jobsClosed then s.(panicked := true)
      else s.(jobs := s.jobs + [s.es[t].job], accepted := s.accepted + [s.es[t].job],
              es := s.es[t := Releasing(true)])
    case SeeDone(t) => s.(es := s.es[t := Releasing(false)])
    case TimeOut(t) => s.(es := s.es[t := Releasing(false)])
    case Release(t) => s.(wg := s.wg - 1, es := s.es[t := Returned(s.es[t].ok)])
    case Shut(t) =>
      if s.closed then s.(cs := s.cs[t := Finished])
      else s.(closed := true, doneClosed := true, panicked := s.panicked || s.doneClosed, cs := s.cs[t := Waiting])
    case PassWait(t) => s.(cs := s.cs[t := Closing])
    case CloseJobs(t) => s.(jobsClosed := true, panicked := s.panicked || s.jobsClosed, cs := s.cs[t := Finished])
    case Receive => s.(jobs := s.jobs[1..], delivered := s.delivered + [s.jobs[0]])
    case ReceiveNil => s
  }

  predicate Inside(e: Enqueuer) { e.Sending? || e.Releasing? }
  function InsidePred(): Enqueuer -> bool { (e: Enqueuer) => Inside(e) }
  function ShuttingPred(): Closer -> bool { (x: Closer) => x.Waiting? || x.Closing? }

  // The WaitGroup counts exactly the enqueuers past the closed check; one closer at
  // most is between setting `closed` and closing the channel; past wg.Wait nobody is
  // inside and nobody can get in.
  ghost predicate Inv(s: State) {
    && !s.panicked
    && s.doneClosed == s.closed
    && s.wg == Count(s.es, InsidePred())
    && Count(s.cs, ShuttingPred()) + Bit(s.jobsClosed) == Bit(s.closed)
    && (s.jobsClosed || (exists t :: 0 <= t < |s.cs| && s.cs[t].Closing?) ==> s.wg == 0 && s.closed)
    && s.accepted == s.delivered + s.jobs
    && |s.jobs| <= s.cap
  }

  lemma NobodyInside(s: State, t: nat)
    requires Inv(s) && t < |s.es| && Inside(s.es[t])
    ensures s.wg > 0 && !s.jobsClosed && forall x :: 0 <= x < |s.cs| ==> !s.cs[x].Closing?
  {
    CountPositive(s.es, t, InsidePred());
  }

  lemma EnqueueInv(s: State, ev: Event)
    requires Inv(s) && Enabled(s, ev)
    requires ev.CallEnqueue? || ev.Admit? || ev.Send? || ev.SeeDone? || ev.TimeOut? || ev.Release?
    ensures Inv(Fire(s, ev))
  {
    var t := Fire(s, ev);
    if ev.CallEnqueue? {
      CountSnoc(s.es, Entering(ev.job), InsidePred());
    } else {
      if Inside(s.es[ev.t]) { NobodyInside(s, ev.t); }
      CountUpdate(s.es, ev.t, t.es[ev.t], InsidePred());
      assert t.es == s.es[ev.t := t.es[ev.t]];
    }
  }

  lemma ShutInv(s: State, ev: Event)
    requires Inv(s) && Enabled(s, ev) && (ev.CallClose? || ev.Shut? || ev.PassWait? || ev.CloseJobs?)
    ensures Inv(Fire(s, ev))
  {
    var t := Fire(s, ev);
    if ev.CallClose? {
      CountSnoc(s.cs, Calling, ShuttingPred());
      assert forall x :: 0 <= x < |t.cs| && t.cs[x].Closing? ==> s.cs[x].Closing?;
    } else {
      CountUpdate(s.cs, ev.t, t.cs[ev.t], ShuttingPred());
      if s.cs[ev.t].Waiting? || s.cs[ev.t].Closing? { CountPositive(s.cs, ev.t, ShuttingPred()); }
      forall x | 0 <= x < |t.cs| && t.cs[x].Closing? ensures ev.PassWait? || s.cs[x].Closing? {}
    }
  }

  lemma ReceiveInv(s: State, ev: Event)
    requires Inv(s) && Enabled(s, ev) && (ev.Receive? || ev.ReceiveNil?)
    ensures Inv(Fire(s, ev))
  {
    if ev.Receive? {
      assert s.delivered + s.jobs == s.delivered + [s.jobs[0]] + s.jobs[1..];
    }
  }

  ghost predicate Run(ss: seq<State>, evs: seq<Event>) {
    && |ss| == |evs| + 1 && Init(ss[0])
    && forall k :: 0 <= k < |evs| ==> Enabled(ss[k], evs[k]) && ss[k + 1] == Fire(ss[k], evs[k])
  }

  lemma {:induction false} RunInv(ss: seq<State>, evs: seq<Event>, k: nat)
    requires Run(ss, evs) && k < |ss|
    ensures Inv(ss[k])
  {
    if k > 0 {
      RunInv(ss, evs, k - 1);
      var ev := evs[k - 1];
      if ev.Receive? || ev.ReceiveNil? { ReceiveInv(ss[k - 1], ev); }
      else if ev.CallClose? || ev.Shut? || ev.PassWait? || ev.CloseJobs? { ShutInv(ss[k - 1], ev); }
      else { EnqueueInv(ss[k - 1], ev); }
    }
  }

  // No send ever meets a closed channel and neither channel is closed twice, however
  // many Enqueue and Close calls interleave.
  lemma CloseIsSafe(ss: seq<State>, evs: seq<Event>, k: nat)
    requires Run(ss, evs) && k < |ss|
    ensures !ss[k].panicked
    ensures ss[k].jobsClosed ==> ss[k].wg == 0 && forall t :: 0 <= t < |ss[k].es| ==> !Inside(ss[k].es[t])
    ensures k < |evs| && evs[k].Send? ==> !ss[k].jobsClosed
    ensures forall j :: k < j < |evs| && k < |evs| && evs[k].CloseJobs? ==> !evs[j].CloseJobs?
  {
    RunInv(ss, evs, k);
    var s := ss[k];
    forall t | 0 <= t < |s.es| && s.jobsClosed ensures !Inside(s.es[t]) {
      if Inside(s.es[t]) { NobodyInside(s, t); }
    }
    if k < |evs| && evs[k].Send? { NobodyInside(s, evs[k].t); }
    forall j | k < j < |evs| && k < |evs| && evs[k].CloseJobs? ensures !evs[j].CloseJobs? {
      StaysClosed(ss, evs, k + 1, j);
      RunInv(ss, evs, j);
      if evs[j].CloseJobs? { CountPositive(ss[j].cs, evs[j].t, ShuttingPred()); }
    }
  }

  lemma ClosedStep(s: State, ev: Event)
    requires Inv(s) && Enabled(s, ev) && s.jobsClosed
    ensures Fire(s, ev).jobsClosed && Fire(s, ev).accepted == s.accepted
  {
    if ev.Send? { NobodyInside(s, ev.t); }
  }

  lemma {:induction false} StaysClosed(ss: seq<State>, evs: seq<Event>, k: nat, m: nat)
    requires Run(ss, evs) && k <= m < |ss| && ss[k].jobsClosed
    ensures ss[m].jobsClosed && ss[m].accepted == ss[k].accepted
    decreases m
  {
    if k < m {
      StaysClosed(ss, evs, k, m - 1);
      RunInv(ss, evs, m - 1);
      ClosedStep(ss[m - 1], evs[m - 1]);
    }
  }

  // FIFO: what was accepted is what was delivered followed by what the channel holds;
  // the channel never overflows; a Dequeue reports nil only when every job ever
  // accepted, then or later, has been delivered.
  lemma FifoHistory(ss: seq<State>, evs: seq<Event>, k: nat, m: nat)
    requires Run(ss, evs) && k <= m < |ss|
    ensures ss[k].accepted == ss[k].delivered + ss[k].jobs && |ss[k].jobs| <= ss[k].cap
    ensures ss[k].jobsClosed ==> ss[m].accepted == ss[k].accepted
    ensures k < |evs| && evs[k].ReceiveNil? ==> ss[k].delivered == ss[m].accepted
  {
    RunInv(ss, evs, k);
    if ss[k].jobsClosed {
      StaysClosed(ss, evs, k, m);
    }
  }

  // ---- what the callers are told ---------------------------------------------------------

  function AcceptedPred(): Enqueuer -> bool {
    (e: Enqueuer) => (e.Releasing? || e.Returned?) && e.ok
  }

  ghost predicate Truthful(s: State) {
    Count(s.es, AcceptedPred()) == |s.accepted|
  }

  lemma TruthfulStep(s: State, ev: Event)
    requires Enabled(s, ev) && Truthful(s) && Inv(s)
    ensures Truthful(Fire(s, ev))
  {
    var t := Fire(s, ev);
    match ev {
      case CallEnqueue(job) => CountSnoc(s.es, Entering(job), AcceptedPred());
      case Admit(i) => CountUpdate(s.es, i, t.es[i], AcceptedPred());
      case Send(i) =>
        NobodyInside(s, i);
        CountUpdate(s.es, i, t.es[i], AcceptedPred());
      case SeeDone(i) => CountUpdate(s.es, i, t.es[i], AcceptedPred());
      case TimeOut(i) => CountUpdate(s.es, i, t.es[i], AcceptedPred());
      case Release(i) => CountUpdate(s.es, i, t.es[i], AcceptedPred());
      case _ =>
    }
  }

  lemma {:induction false} RunTruthful(ss: seq<State>, evs: seq<Event>, k: nat)
    requires Run(ss, evs) && k < |ss|
    ensures Truthful(ss[k])
  {
    if k > 0 {
      RunTruthful(ss, evs, k - 1);
      RunInv(ss, evs, k - 1);
      TruthfulStep(ss[k - 1], evs[k - 1]);
    }
  }

  // Enqueue reports success exactly as often as a job was accepted; it refuses at the door
  // exactly when the queue is closed, and once inside fails only for a queue that is
  // closing or by the timeout; with room in an open channel the send can always go ahead.
  lemma EnqueueIsTruthful(ss: seq<State>, evs: seq<Event>, k: nat)
    requires Run(ss, evs) && k < |evs|
    ensures Count(ss[k].es, AcceptedPred()) == |ss[k].accepted|
    ensures evs[k].Admit? ==> var t := evs[k].t;
      ss[k + 1].es[t] == if ss[k].closed then Returned(false) else Sending(ss[k].es[t].job)
    ensures evs[k].Send? ==> var t := evs[k].t;
      ss[k + 1].es[t] == Releasing(true) && ss[k + 1].accepted == ss[k].accepted + [ss[k].es[t].job]
    ensures evs[k].SeeDone? ==> ss[k].closed && ss[k + 1].es[evs[k].t] == Releasing(false)
    ensures forall t :: 0 <= t < |ss[k].es| && ss[k].es[t].Sending? && |ss[k].jobs| < ss[k].cap ==> Enabled(ss[k], Send(t))
    ensures forall t :: 0 <= t < |ss[k].es| && ss[k].es[t].Entering? ==> Enabled(ss[k], Admit(t))
    ensures ss[k].jobs != [] ==> Enabled(ss[k], Receive)
  {
    RunTruthful(ss, evs, k);
    RunInv(ss, evs, k);
    if evs[k].Send? { NobodyInside(ss[k], evs[k].t); }
  }
}
