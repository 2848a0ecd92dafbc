// Building particular runs of the server, for the statements that say a property fails.
module Runs {
  import opened Models
  import opened Tables
  import opened Counting
  import opened Lifecycle

  datatype Trace = Trace(ss: seq<State>, evs: seq<Event>) {
    ghost predicate Of(c: Config) { Run(c, ss, evs) }

    function Last(): State
      requires ss != []
    {
      ss[|ss| - 1]
    }

    ghost predicate At(c: Config, s: State) { Of(c) && Last() == s }
  }

  // Trace `to` goes on where `from` ends, without a crash.
  ghost predicate Continues(from: Trace, to: Trace) {
    && from.ss <= to.ss && from.evs <= to.evs
    && forall k :: |from.evs| <= k < |to.evs| ==> !to.evs[k].Crash?
  }

  // One process lifetime.
  ghost predicate OneLife(r: Trace) {
    forall k :: 0 <= k < |r.evs| ==> !r.evs[k].Crash?
  }

  lemma StillOneLife(a: Trace, b: Trace)
    requires OneLife(a) && Continues(a, b)
    ensures OneLife(b)
  {
    forall k | 0 <= k < |b.evs| ensures !b.evs[k].Crash? {
      if k < |a.evs| { assert b.evs[k] == a.evs[k]; }
    }
  }

  lemma StillThere(a: Trace, b: Trace)
    requires a.ss != [] && Continues(a, b)
    ensures |a.ss| <= |b.ss| && b.ss[|a.ss| - 1] == a.Last()
  {
  }

  lemma Then(c: Config, r: Trace, ev: Event) returns (n: Trace)
    requires r.Of(c) && Enabled(c, r.Last(), ev) && !ev.Crash?
    ensures n.At(c, Fire(c, r.Last(), ev)) && Continues(r, n)
    ensures n.evs == r.evs + [ev]
  {
    n := Trace(r.ss + [Fire(c, r.Last(), ev)], r.evs + [ev]);
  }

  lemma ContinuesOn(a: Trace, b: Trace, c: Trace)
    requires Continues(a, b) && Continues(b, c)
    ensures Continues(a, c)
  {
  }

  const SERVING: seq<Scanner> := SCANNERS[STARTUP := Scanner(ToRate, Ended, [], None)]

  // Recovering one lane when the table is empty.
  lemma EmptyLane(c: Config, r: Trace) returns (n: Trace)
    requires r.Of(c) && r.Last().db == map[] && |r.Last().scans| == |SCANNERS|
    requires r.Last().scans[STARTUP].mode.Resting? && r.Last().scans[STARTUP].hand.None?
    requires r.Last().scans[STARTUP].todo == []
    ensures n.At(c, r.Last().(scans := r.Last().scans[STARTUP := NextLane(r.Last().scans[STARTUP].(mode := Active))]))
    ensures Continues(r, n)
  {
    assert IsListing(r.Last().db, []);
    n := Then(c, r, Scan(STARTUP, List(true, [])));
    var m := n;
    n := Then(c, m, Scan(STARTUP, Finish));
  }

  // The first start of the server: nothing to recover.
  lemma Open(c: Config) returns (n: Trace)
    ensures n.At(c, Boot(c, map[], 0, NO_HISTORY).(scans := SERVING))
    ensures OneLife(n)
  {
    var r := Trace([Boot(c, map[], 0, NO_HISTORY)], []);
    var a := EmptyLane(c, r);
    var b := EmptyLane(c, a);
    n := EmptyLane(c, b);
    assert n.Last().scans == SERVING;
  }

  // A client submits a job of normal priority and gets its answer.
  lemma Submit(c: Config, r: Trace, id: JobId, queue: QueueType) returns (n: Trace)
    requires r.Of(c) && Serving(r.Last()) && id !in r.Last().db && HasRoom(c, r.Last().q, queue)
    ensures var s, job := r.Last(), Job(id, queue, PRIORITY_NORMAL, r.Last().now);
            n.At(c, s.(db := s.db[id := NewRow(job)], q := Route(s.q, job), hs := s.hs + [Replied],
                       met := s.met.(submitted := Add(s.met.submitted, queue, 1))))
    ensures Continues(r, n)
  {
    var t, job := |r.Last().hs|, Job(id, queue, PRIORITY_NORMAL, r.Last().now);
    var a := Then(c, r, Create(id, queue, PRIORITY_NORMAL, true));
    var b := Then(c, a, Place(t));
    assert b.Last().hs == r.Last().hs + [Enqueuing(job)];
    n := Then(c, b, Enqueue(t, true));
    assert n.Last().hs == r.Last().hs + [Replied];
  }

  lemma BeginLoop(c: Config, r: Trace, i: nat) returns (n: Trace)
    requires r.Of(c) && i < |r.Last().ws| && r.Last().ws[i].pc.Top? && !r.Last().crew.stopped
    ensures n.At(c, r.Last().(ws := r.Last().ws[i := r.Last().ws[i].(pc := CheckSlot)]))
    ensures Continues(r, n)
  {
    n := Then(c, r, Work(i, Loop));
  }

  lemma LookAtSlot(c: Config, r: Trace, i: nat) returns (n: Trace)
    requires r.Of(c) && i < |r.Last().ws| && r.Last().ws[i].pc.Top? && r.Last().ws[i].slot.None?
    requires !r.Last().crew.stopped
    ensures n.At(c, r.Last().(ws := r.Last().ws[i := r.Last().ws[i].(pc := PollPriority)]))
    ensures Continues(r, n)
  {
    var w := r.Last().ws[i];
    var a := BeginLoop(c, r, i);
    assert Enabled(c, a.Last(), Work(i, TakeSlot));
    assert Perform(c, a.Last(), i, TakeSlot) == Move(w.(pc := PollPriority));
    n := Then(c, a, Work(i, TakeSlot));
    assert n.Last().ws == r.Last().ws[i := w.(pc := PollPriority)];
  }

  // Worker i, about to begin its loop, finds its slot and the priority queue empty.
  lemma LookIn(c: Config, r: Trace, i: nat) returns (n: Trace)
    requires r.Of(c) && i < |r.Last().ws| && r.Last().ws[i].pc.Top? && r.Last().ws[i].slot.None?
    requires !r.Last().crew.stopped && r.Last().q.prio == []
    ensures n.At(c, r.Last().(ws := r.Last().ws[i := r.Last().ws[i].(pc := PollRate)]))
    ensures Continues(r, n)
  {
    var a := LookAtSlot(c, r, i);
    n := Then(c, a, Work(i, PopPriority));
    assert n.Last().ws == r.Last().ws[i := r.Last().ws[i].(pc := PollRate)];
  }
}
