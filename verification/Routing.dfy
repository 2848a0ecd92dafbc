// The router's preference in every interleaving of workers, handlers and supervisor.
module Routing {
  import opened Ordering
  import opened Lifecycle

  // Since its last look at the priority queue, which found it empty, worker i has only
  // checked for a token and tried the rate-limited channel in vain.
  ghost predicate SawPriorityEmpty(ss: seq<State>, evs: seq<Event>, m: nat, i: nat)
    requires m < |ss| == |evs| + 1
  {
    exists k :: 0 <= k < m && evs[k] == Work(i, PopPriority) && ss[k].q.prio == []
      && forall x :: k < x < m && evs[x].Work? && evs[x].i == i ==>
           evs[x].act.CheckToken? || evs[x].act == ReceiveRate(false)
  }

  predicate PastPriority(pc: Pc) {
    pc.PollRate? || pc.TakeRate? || pc.PollFifo?
  }

  lemma PassStep(c: Config, s: State, i: nat, act: Act)
    requires i < |s.ws| && ActEnabled(c, s, i, act) && PastPriority(Perform(c, s, i, act).w.pc)
    ensures (act.PopPriority? && s.q.prio == [])
         || (PastPriority(s.ws[i].pc) && (act.CheckToken? || act == ReceiveRate(false)))
  {
  }

  lemma OthersLeavePc(c: Config, s: State, ev: Event, i: nat)
    requires Enabled(c, s, ev) && !(ev.Work? && ev.i == i)
    requires i < |Fire(c, s, ev).ws| && PastPriority(Fire(c, s, ev).ws[i].pc)
    ensures i < |s.ws| && s.ws[i].pc == Fire(c, s, ev).ws[i].pc
  {
  }

  lemma {:induction false} PassBegan(c: Config, ss: seq<State>, evs: seq<Event>, m: nat, i: nat)
    requires Run(c, ss, evs) && m < |ss| && i < |ss[m].ws| && PastPriority(ss[m].ws[i].pc)
    ensures SawPriorityEmpty(ss, evs, m, i)
    decreases m
  {
    if m > 0 {
      var s, ev := ss[m - 1], evs[m - 1];
      if ev.Work? && ev.i == i {
        PassStep(c, s, i, ev.act);
        if ev.act.PopPriority? {
          assert evs[m - 1] == Work(i, PopPriority);
        } else {
          PassBegan(c, ss, evs, m - 1, i);
          ExtendPass(ss, evs, m, i);
        }
      } else {
        OthersLeavePc(c, s, ev, i);
        PassBegan(c, ss, evs, m - 1, i);
        ExtendPass(ss, evs, m, i);
      }
    }
  }

  lemma ExtendPass(ss: seq<State>, evs: seq<Event>, m: nat, i: nat)
    requires 0 < m < |ss| == |evs| + 1 && SawPriorityEmpty(ss, evs, m - 1, i)
    requires evs[m - 1].Work? && evs[m - 1].i == i ==>
      evs[m - 1].act.CheckToken? || evs[m - 1].act == ReceiveRate(false)
    ensures SawPriorityEmpty(ss, evs, m, i)
  {
    var k :| 0 <= k < m - 1 && evs[k] == Work(i, PopPriority) && ss[k].q.prio == []
      && forall x :: k < x < m - 1 && evs[x].Work? && evs[x].i == i ==>
           evs[x].act.CheckToken? || evs[x].act == ReceiveRate(false);
    assert evs[k] == Work(i, PopPriority);
  }

  // A rate-limited or FIFO job is taken only in a polling pass that found the priority
  // queue empty.
  lemma LowerQueuesOnlyWhenEmpty(c: Config, ss: seq<State>, evs: seq<Event>, m: nat, i: nat)
    requires Run(c, ss, evs) && m < |evs|
    requires evs[m] == Work(i, ReceiveRate(true)) || evs[m] == Work(i, ReceiveFifo(true))
    ensures SawPriorityEmpty(ss, evs, m, i)
  {
    PassBegan(c, ss, evs, m, i);
  }

  lemma SortedStep(c: Config, s: State, ev: Event)
    requires Enabled(c, s, ev) && Sorted(s.q.prio)
    ensures Sorted(Fire(c, s, ev).q.prio)
  {
    match ev {
      case Enqueue(t, _) => InsertSorted(s.q.prio, s.hs[t].job);
      case Scan(k, step) =>
        if step.Put? { InsertSorted(s.q.prio, s.scans[k].hand.value); }
        assert Fire(c, s, ev) == FireScan(c, s, k, step);
      case Work(i, act) => SortedMove(c, s, i, Perform(c, s, i, act));
      case _ => assert Fire(c, s, ev).q.prio == s.q.prio || ev.Crash?;
    }
  }

  lemma SortedMove(c: Config, s: State, i: nat, e: Effect)
    requires i < |s.ws| && Sorted(s.q.prio)
    ensures Sorted(Apply(c, s, i, e).q.prio)
  {
  }

  lemma {:induction false} RunSorted(c: Config, ss: seq<State>, evs: seq<Event>, k: nat)
    requires Run(c, ss, evs) && k < |ss|
    ensures Sorted(ss[k].q.prio) && MostUrgentFirst(ss[k].q.prio)
  {
    SortedMeans(ss[k].q.prio);
    if k > 0 {
      RunSorted(c, ss, evs, k - 1);
      SortedStep(c, ss[k - 1], evs[k - 1]);
    }
  }

  // A popped priority job outranks or ties everything it leaves behind.
  lemma PoppedIsBest(c: Config, ss: seq<State>, evs: seq<Event>, m: nat, i: nat)
    requires Run(c, ss, evs) && m < |evs| && evs[m] == Work(i, PopPriority) && ss[m].q.prio != []
    ensures ss[m + 1].ws[i].pc == Got(ss[m].q.prio[0])
    ensures ss[m].q.prio == [ss[m].q.prio[0]] + ss[m + 1].q.prio
    // more urgent than everything left behind, or as urgent and no younger
    ensures var job, left := ss[m].q.prio[0], ss[m + 1].q.prio;
            forall k :: 0 <= k < |left| ==>
              job.priority > left[k].priority || (job.priority == left[k].priority && job.createdAt <= left[k].createdAt)
  {
    RunSorted(c, ss, evs, m);
    var q := ss[m].q.prio;
    assert q == [q[0]] + q[1..];
    HeadIsBest(q[0], q[1..]);
  }
}
