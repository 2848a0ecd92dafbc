// SortedQueue's signalling: insertions under the mutex, a one-place signal channel
// outside it, and consumers that pop, find nothing and block.
module WakeUp {
  import opened Models
  import opened Ordering

  datatype Producer = Arriving(job: Job) | Inserted | Done

  datatype Consumer =
    | Outside                 // not in a dequeue call
    | Popping                 // about to lock and pop
    | Blocked                 // popped nothing while open; in (or just before) the select
    | Woken                   // consumed a signal, about to pop again

  datatype State = State(jobs: seq<Job>, signal: bool, closed: bool, ps: seq<Producer>, cs: seq<Consumer>)

  datatype Event =
    | CallEnqueue(job: Job)
    | InsertJob(t: nat)       // lock; insertLocked; unlock (or refusal when closed)
    | Signal(t: nat)          // non-blocking send on the signal channel
    | CallDequeue(i: nat)
    | Pop(i: nat)             // lock; popLocked; read closed; unlock
    | Wake(i: nat)            // receive from signal
    | GiveUp(i: nat)          // done closed, or the timer of DequeueOrWait
    | PopAgain(i: nat, loops: bool)  // Dequeue loops on nothing, DequeueOrWait returns
    | Close

  predicate Init(n: nat, s: State) {
    s == State([], false, false, [], seq(n, _ => Outside))
  }

  predicate Enabled(s: State, ev: Event) {
    match ev
    case CallEnqueue(_) => true
    case InsertJob(t) => t < |s.ps| && s.ps[t].Arriving?
    case Signal(t) => t < |s.ps| && s.ps[t].Inserted?
    case CallDequeue(i) => i < |s.cs| && s.cs[i].Outside?
    case Pop(i) => i < |s.cs| && s.cs[i].Popping?
    case Wake(i) => i < |s.cs| && s.cs[i].Blocked? && s.signal
    case GiveUp(i) => i < |s.cs| && s.cs[i].Blocked?
    case PopAgain(i, _) => i < |s.cs| && s.cs[i].Woken?
    case Close => !s.closed
  }

  function Fire(s: State, ev: Event): State
    requires Enabled(s, ev)
  {
    match ev
    case CallEnqueue(job) => s.(ps := s.ps + [Arriving(job)])
    case InsertJob(t) =>
      if s.closed then s.(ps := s.ps[t := Done])
      else s.(jobs := Insert(s.jobs, s.ps[t].job), ps := s.ps[t := Inserted])
    case Signal(t) => s.(signal := true, ps := s.ps[t := Done])
    case CallDequeue(i) => s.(cs := s.cs[i := Popping])
    case Pop(i) => PopStep(s, i, true)
    case Wake(i) => s.(signal := false, cs := s.cs[i := Woken])
    case GiveUp(i) => s.(cs := s.cs[i := Outside])
    case PopAgain(i, loops) => PopStep(s, i, loops)
    case Close => s.(closed := true)
  }

  // A pop that finds a job returns it; one that does not blocks if the call goes on.
  function PopStep(s: State, i: nat, goesOn: bool): State
    requires i < |s.cs|
  {
    if s.jobs != [] then s.(jobs := s.jobs[1..], cs := s.cs[i := Outside])
    else s.(cs := s.cs[i := if s.closed || !goesOn then Outside else Blocked])
  }

  ghost predicate Run(n: nat, ss: seq<State>, evs: seq<Event>) {
    && |ss| == |evs| + 1 && Init(n, ss[0])
    && forall k :: 0 <= k < |evs| ==> Enabled(ss[k], evs[k]) && ss[k + 1] == Fire(ss[k], evs[k])
  }

  // Someone is asleep although there is work and nobody is on the way to wake them.
  ghost predicate LostWakeUp(s: State) {
    && s.jobs != [] && !s.signal
    && (exists i :: 0 <= i < |s.cs| && s.cs[i].Blocked?)
    && (forall t :: 0 <= t < |s.ps| ==> !s.ps[t].Inserted?)
  }

  lemma StepAwake(s: State, ev: Event)
    requires |s.cs| <= 1 && Enabled(s, ev) && !LostWakeUp(s)
    ensures !LostWakeUp(Fire(s, ev)) && |Fire(s, ev).cs| == |s.cs|
  {
    var t := Fire(s, ev);
    forall x | 0 <= x < |s.ps| && s.ps[x].Inserted? && ev != Signal(x) ensures t.ps[x].Inserted? {}
    if ev.InsertJob? && !s.closed { assert t.ps[ev.t].Inserted?; }
    if ev.InsertJob? && s.closed { assert forall x :: 0 <= x < |s.ps| ==> t.ps[x].Inserted? == s.ps[x].Inserted?; }
  }

  lemma {:induction false} RunAwake(n: nat, ss: seq<State>, evs: seq<Event>, k: nat)
    requires n <= 1 && Run(n, ss, evs) && k < |ss|
    ensures !LostWakeUp(ss[k]) && |ss[k].cs| == n
  {
    if k > 0 {
      RunAwake(n, ss, evs, k - 1);
      StepAwake(ss[k - 1], evs[k - 1]);
    }
  }

  // Two consumers block; two insertions coalesce into one signal; one consumer wakes,
  // pops one job and leaves; the other sleeps beside the second job.
  function SleepEvents(job: Job): seq<Event> {
    [CallDequeue(0), CallDequeue(1), Pop(0), Pop(1), CallEnqueue(job), CallEnqueue(job),
     InsertJob(0), InsertJob(1), Signal(0), Signal(1), Wake(0), PopAgain(0, true)]
  }

  // n consumers, all outside but the first two.
  function Pair(n: nat, jobs: seq<Job>, signal: bool, ps: seq<Producer>, c0: Consumer, c1: Consumer): State {
    State(jobs, signal, false, ps, seq(n, i => if i == 0 then c0 else if i == 1 then c1 else Outside))
  }

  function SleepStates(n: nat, job: Job): seq<State> {
    var a, d := Arriving(job), Done;
    [Pair(n, [], false, [], Outside, Outside),
     Pair(n, [], false, [], Popping, Outside),
     Pair(n, [], false, [], Popping, Popping),
     Pair(n, [], false, [], Blocked, Popping),
     Pair(n, [], false, [], Blocked, Blocked),
     Pair(n, [], false, [a], Blocked, Blocked),
     Pair(n, [], false, [a, a], Blocked, Blocked),
     Pair(n, [job], false, [Inserted, a], Blocked, Blocked),
     Pair(n, [job, job], false, [Inserted, Inserted], Blocked, Blocked),
     Pair(n, [job, job], true, [d, Inserted], Blocked, Blocked),
     Pair(n, [job, job], true, [d, d], Blocked, Blocked),
     Pair(n, [job, job], false, [d, d], Woken, Blocked),
     Pair(n, [job], false, [d, d], Outside, Blocked)]
  }

  ghost predicate Leads(s: State, ev: Event, t: State) {
    Enabled(s, ev) && t == Fire(s, ev)
  }

  lemma FallAsleep(n: nat)
    requires n >= 2
    ensures Leads(Pair(n, [], false, [], Outside, Outside), CallDequeue(0), Pair(n, [], false, [], Popping, Outside))
    ensures Leads(Pair(n, [], false, [], Popping, Outside), CallDequeue(1), Pair(n, [], false, [], Popping, Popping))
    ensures Leads(Pair(n, [], false, [], Popping, Popping), Pop(0), Pair(n, [], false, [], Blocked, Popping))
    ensures Leads(Pair(n, [], false, [], Blocked, Popping), Pop(1), Pair(n, [], false, [], Blocked, Blocked))
  {
  }

  lemma WakeOne(n: nat, jobs: seq<Job>, ps: seq<Producer>)
    requires n >= 2 && jobs != []
    ensures Leads(Pair(n, jobs, true, ps, Blocked, Blocked), Wake(0), Pair(n, jobs, false, ps, Woken, Blocked))
    ensures Leads(Pair(n, jobs, false, ps, Woken, Blocked), PopAgain(0, true),
                  Pair(n, jobs[1..], false, ps, Outside, Blocked))
  {
  }

  lemma InsertTwice(job: Job)
    ensures Insert([], job) == [job] && Insert([job], job) == [job, job]
  {
    assert Slot([job], job) == 1;
  }

  lemma Produce(n: nat, job: Job, c0: Consumer, c1: Consumer)
    ensures var a, d := Arriving(job), Done;
      && Leads(Pair(n, [], false, [], c0, c1), CallEnqueue(job), Pair(n, [], false, [a], c0, c1))
      && Leads(Pair(n, [], false, [a], c0, c1), CallEnqueue(job), Pair(n, [], false, [a, a], c0, c1))
      && Leads(Pair(n, [], false, [a, a], c0, c1), InsertJob(0), Pair(n, [job], false, [Inserted, a], c0, c1))
      && Leads(Pair(n, [job], false, [Inserted, a], c0, c1), InsertJob(1),
               Pair(n, [job, job], false, [Inserted, Inserted], c0, c1))
      && Leads(Pair(n, [job, job], false, [Inserted, Inserted], c0, c1), Signal(0),
               Pair(n, [job, job], true, [d, Inserted], c0, c1))
      && Leads(Pair(n, [job, job], true, [d, Inserted], c0, c1), Signal(1), Pair(n, [job, job], true, [d, d], c0, c1))
  {
    InsertTwice(job);
  }

  lemma TwoCanOversleep(n: nat, job: Job)
    requires n >= 2
    ensures Run(n, SleepStates(n, job), SleepEvents(job)) && LostWakeUp(SleepStates(n, job)[12])
  {
    var ss, evs := SleepStates(n, job), SleepEvents(job);
    FallAsleep(n);
    Produce(n, job, Blocked, Blocked);
    WakeOne(n, [job, job], [Done, Done]);
    assert [job, job][1..] == [job];
    assert Init(n, ss[0]);
    forall k | 0 <= k < 12 ensures Leads(ss[k], evs[k], ss[k + 1]) {
    }
    assert ss[12].cs[1].Blocked?;
  }

  ghost predicate NeverOversleeps(n: nat) {
    forall ss, evs, k :: Run(n, ss, evs) && 0 <= k < |ss| ==> !LostWakeUp(ss[k])
  }

  // A blocked consumer with work waiting always has a wake-up on its way - exactly
  // when the queue has at most one consumer.
  lemma WakeUpsKeptIffOneConsumer(n: nat)
    ensures NeverOversleeps(n) <==> n <= 1
  {
    if n <= 1 {
      forall ss, evs, k | Run(n, ss, evs) && 0 <= k < |ss| ensures !LostWakeUp(ss[k]) {
        RunAwake(n, ss, evs, k);
      }
    } else {
      var job := Job(0, Priority, PRIORITY_NORMAL, 0);
      TwoCanOversleep(n, job);
    }
  }

  // The slice: a closed queue takes in nothing more and gives out what it holds; an open
  // one takes in every job, in its place.
  lemma SliceStory(n: nat, ss: seq<State>, evs: seq<Event>, k: nat)
    requires Run(n, ss, evs) && k < |evs|
    ensures ss[k + 1].closed <==> ss[k].closed || evs[k].Close?
    ensures evs[k].InsertJob? && !ss[k].closed ==> ss[k + 1].jobs == Insert(ss[k].jobs, ss[k].ps[evs[k].t].job)
    ensures evs[k].Pop? || evs[k].PopAgain? ==> ss[k + 1].jobs == if ss[k].jobs == [] then [] else ss[k].jobs[1..]
    ensures !(evs[k].InsertJob? && !ss[k].closed) && !evs[k].Pop? && !evs[k].PopAgain? ==> ss[k + 1].jobs == ss[k].jobs
  {
  }

  // The callers: a producer that inserted signals next; a consumer leaves with a job or a
  // closed queue's nil, blocks on nothing, and leaves the select when told to.
  lemma CallerStory(n: nat, ss: seq<State>, evs: seq<Event>, k: nat)
    requires Run(n, ss, evs) && k < |evs|
    ensures var s, t, ev := ss[k], ss[k + 1], evs[k];
      && (t.signal <==> if ev.Signal? then true else if ev.Wake? then false else s.signal)
      && (ev.InsertJob? ==> t.ps == s.ps[ev.t := if s.closed then Done else Inserted])
      && (ev.Signal? ==> t.ps == s.ps[ev.t := Done])
      && (ev.CallDequeue? ==> t.cs == s.cs[ev.i := Popping])
      && (ev.Wake? ==> t.cs == s.cs[ev.i := Woken])
      && (ev.GiveUp? ==> t.cs == s.cs[ev.i := Outside])
      && (ev.Pop? ==> t.cs == s.cs[ev.i := if s.jobs != [] || s.closed then Outside else Blocked])
      && (ev.PopAgain? ==> t.cs == s.cs[ev.i := if s.jobs != [] || s.closed || !ev.loops then Outside else Blocked])
  {
  }
}
