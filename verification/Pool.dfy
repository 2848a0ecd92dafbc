// The pool's own shared fields and the regions that touch them, each proved to be the
// step of the lifecycle machine that stands for it.
module WorkerPool {
  import opened Models
  import opened Lifecycle
  import Ownership
  import RetryBudget
  import Supervision
  import Theorems

  class Pool {
    const count: nat
    var current: array<Option<Job>>        // workers[i].currentJob
    var ctx: array<Ctx>                    // the context behind workers[i].cancel
    var preemptQueue: array<Option<Job>>
    var workerDied: seq<nat>               // channel of capacity `count`
    var preempted: nat                     // JobsPreempted, all labels
    ghost var pcs: seq<Pc>                 // where the goroutines stand

    ghost predicate Valid()
      reads this
    {
      && current.Length == ctx.Length == preemptQueue.Length == |pcs| == count
      && current != preemptQueue && |workerDied| <= count
    }

    constructor (c: Config, ghost now: Time)
      ensures Mirrors(c, Boot(c, map[], now, NO_HISTORY)) && preempted == 0
      ensures fresh(current) && fresh(ctx) && fresh(preemptQueue)
    {
      count := c.workers;
      current := new Option<Job>[c.workers](_ => None);
      ctx := new Ctx[c.workers](_ => Alive);
      preemptQueue := new Option<Job>[c.workers](_ => None);
      workerDied, preempted := [], 0;
      pcs := seq(c.workers, _ => Top);
    }

    // The workers as the lifecycle machine sees them.
    ghost function View(): (ws: seq<Worker>)
      reads this, current, ctx, preemptQueue
      requires Valid()
      ensures |ws| == count
      ensures forall i :: 0 <= i < count ==> ws[i] == Worker(pcs[i], current[i], ctx[i], preemptQueue[i])
    {
      seq(count, i requires 0 <= i < count && Valid() reads this, current, ctx, preemptQueue =>
        Worker(pcs[i], current[i], ctx[i], preemptQueue[i]))
    }

    // The pool's fields are those of machine state s.
    ghost predicate Mirrors(c: Config, s: State)
      reads this, current, ctx, preemptQueue
    {
      Valid() && c.workers == count && s.ws == View() && s.crew.died == workerDied
    }

    // Cancels the first registered normal job whose worker's slot is free and puts the
    // super-urgent job there. None stands for the error "no preemptable job found".
    method Preempt(job: Job) returns (r: Option<JobId>)
      requires Valid()
      modifies `preempted, ctx, preemptQueue
      ensures Valid()
      ensures match Victim(old(View()))
              case None => r.None? && View() == old(View()) && preempted == old(preempted)
              case Some(v) =>
                var w := old(View())[v];
                && r == Some(w.cur.value.id) && preempted == old(preempted) + 1
                && View() == old(View())[v := w.(ctx := Cancel(w.ctx), slot := Some(job))]
    {
      ghost var ws := View();
      for i := 0 to count
        invariant Valid() && View() == ws && preempted == old(preempted)
        invariant forall j :: 0 <= j < i ==> !Eligible(ws[j])
      {
        if current[i].Some? && current[i].value.priority == PRIORITY_NORMAL && preemptQueue[i].None? {
          FirstIsVictim(ws, i);
          var id := current[i].value.id;
          preempted := preempted + 1;
          ctx[i] := Cancel(ctx[i]);
          preemptQueue[i] := Some(job);
          assert View() == ws[i := ws[i].(ctx := Cancel(ws[i].ctx), slot := Some(job))];
          return Some(id);
        }
      }
      NoVictim(ws);
      r := None;
    }

    // CreateJob's decision: only a super-urgent job tries to preempt, and a job that has
    // not preempted is still to be enqueued.
    method PlaceJob(job: Job, ghost c: Config, ghost s: State, ghost t: nat) returns (placed: bool)
      requires Mirrors(c, s) && t < |s.hs| && s.hs[t] == Created(job)
      modifies `preempted, ctx, preemptQueue
      ensures Mirrors(c, Fire(c, s, Place(t)))
      ensures Fire(c, s, Place(t)).hs[t] == if placed then Replied else Enqueuing(job)
      ensures preempted == old(preempted) + Fire(c, s, Place(t)).hist.preempts - s.hist.preempts
    {
      placed := false;
      if job.priority == PRIORITY_SUPER_URGENT {
        var id := Preempt(job);
        placed := id.Some?;
      }
    }

    // The worker's look at its slot, under the mutex.
    method LookAtSlot(id: nat, ghost c: Config, ghost s: State) returns (job: Option<Job>)
      requires Mirrors(c, s) && id < count && pcs[id].CheckSlot?
      modifies preemptQueue, `pcs
      ensures Mirrors(c, Fire(c, s, Work(id, TakeSlot)))
      ensures pcs[id] == if job.Some? then Got(job.value) else PollPriority
    {
      job := preemptQueue[id];
      preemptQueue[id] := None;
      pcs := pcs[id := if job.Some? then Got(job.value) else PollPriority];
      assert View() == Fire(c, s, Work(id, TakeSlot)).ws;
    }

    // Registration of the job about to run, with its new context.
    method StartJob(id: nat, job: Job, ghost c: Config, ghost s: State)
      requires Mirrors(c, s) && id < count && pcs[id] == Ready(job)
      modifies current, ctx, `pcs
      ensures Mirrors(c, Fire(c, s, Work(id, Register)))
    {
      current[id] := Some(job);
      ctx[id] := Alive;
      pcs := pcs[id := Running(job)];
      assert View() == Fire(c, s, Work(id, Register)).ws;
    }

    // The deferred cleanup of processJob, run on a return and on a panic alike.
    method FinishJob(id: nat, ghost c: Config, ghost s: State)
      requires Mirrors(c, s) && id < count && (pcs[id].Finished? || pcs[id].Panicked?)
      modifies current, `pcs
      ensures Mirrors(c, Fire(c, s, Work(id, Cleanup)))
    {
      current[id] := None;
      pcs := pcs[id := if pcs[id].Panicked? then Exiting else Top];
      assert View() == Fire(c, s, Work(id, Cleanup)).ws;
    }

    // The deferred, non-blocking send of the death signal.
    method AnnounceDeath(id: nat, ghost c: Config, ghost s: State) returns (sent: bool)
      requires Mirrors(c, s) && id < count && pcs[id].Exiting?
      modifies `workerDied, `pcs
      ensures Mirrors(c, Fire(c, s, Work(id, Die)))
      ensures Supervision.Accounted(c, s) ==> sent
    {
      sent := |workerDied| < count;
      if sent {
        workerDied := workerDied + [id];
      }
      pcs := pcs[id := Dead];
      assert View() == Fire(c, s, Work(id, Die)).ws;
      if Supervision.Accounted(c, s) { Supervision.SignalFits(c, s, id); }
    }

    // The supervisor's receive.
    method NextDeath(ghost c: Config, ghost s: State) returns (id: nat)
      requires Mirrors(c, s) && workerDied != [] && s.crew.sup.Watching?
      modifies `workerDied
      ensures Mirrors(c, Fire(c, s, Notice)) && Fire(c, s, Notice).crew.sup == Holding(id)
    {
      id := workerDied[0];
      workerDied := workerDied[1..];
    }
  }

  lemma FirstIsVictim(ws: seq<Worker>, i: nat)
    requires i < |ws| && Eligible(ws[i]) && forall j :: 0 <= j < i ==> !Eligible(ws[j])
    ensures Victim(ws) == Some(i)
  {
    var v := Victim(ws);
    assert v.Some? && Eligible(ws[v.value]);
  }

  lemma NoVictim(ws: seq<Worker>)
    requires forall j :: 0 <= j < |ws| ==> !Eligible(ws[j])
    ensures Victim(ws) == None
  {
  }

  // Every other step of a worker leaves the pool's shared fields alone.
  lemma OtherStepsKeepPool(c: Config, s: State, i: nat, act: Act)
    requires i < |s.ws| && ActEnabled(c, s, i, act)
    requires !act.TakeSlot? && !act.Register? && !act.Deadline? && !act.Cleanup? && !act.Die?
    ensures var t := Fire(c, s, Work(i, act));
            && t.crew.died == s.crew.died && |t.ws| == |s.ws|
            && forall j :: 0 <= j < |s.ws| ==>
                 t.ws[j].cur == s.ws[j].cur && t.ws[j].ctx == s.ws[j].ctx && t.ws[j].slot == s.ws[j].slot
  {
    var w, e := s.ws[i], Perform(c, s, i, act).w;
    assert e.cur == w.cur && e.ctx == w.ctx && e.slot == w.slot;
  }

  // Nack reads the row in one statement and writes it in another; while each job has one
  // owner, what it writes is what one atomic nack of the current row would be.
  lemma NackIsAtomic(c: Config, ss: seq<State>, evs: seq<Event>, k: nat, i: nat)
    requires Run(c, ss, evs) && k < |evs| && evs[k] == Work(i, NackWrite(true))
    requires Theorems.OnlyOrphans(c, ss, evs, k)
    ensures var s, id := ss[k], ss[k].ws[i].pc.job.id;
            && Live(s.db, id)
            && ss[k + 1].db == s.db[id := RetryBudget.Apply(s.db[id], RetryBudget.Nack(s.now))]
  {
    Theorems.RunInv(c, ss, evs, k);
    assert Ownership.WorkerOk(ss[k].db, ss[k].ws[i]) && Ownership.FreshRead(ss[k].db, ss[k].ws[i]);
    Ownership.HandIsLive(ss[k], i);
  }
}
