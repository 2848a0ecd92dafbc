// The router over its three queues, one call at a time.
module Routers {
  import opened Models
  import opened Ordering
  import opened Tables
  import opened JobStore
  import opened FifoQueue
  import opened PriorityQueue
  import opened Throttle
  import opened Recovery

  // In one polling pass: whether each select takes the zero timer although a job is
  // ready, which the channel queues allow.
  datatype Luck = Luck(priority: bool, rate: bool, fifo: bool)

  class Router {
    const fifo: MemoryQueue
    const priority: SortedQueue
    const rateLimited: RateLimitedQueue

    ghost predicate Valid()
      reads this, fifo, fifo.store, priority, priority.buf, rateLimited, rateLimited.inner
    {
      && fifo.store == priority.store == rateLimited.inner.store
      && fifo != rateLimited.inner
      && fifo.Valid() && priority.Valid() && rateLimited.Valid()
    }

    constructor (fifo: MemoryQueue, priority: SortedQueue, rateLimited: RateLimitedQueue)
      requires fifo.store == priority.store == rateLimited.inner.store && fifo != rateLimited.inner
      requires fifo.Valid() && priority.Valid() && rateLimited.Valid()
      ensures Valid() && this.fifo == fifo && this.priority == priority && this.rateLimited == rateLimited
    {
      this.fifo, this.priority, this.rateLimited := fifo, priority, rateLimited;
    }

    // What the queue of the job's type answers; unknown types go to FIFO.
    function Admission(queue: QueueType): Outcome
      reads this, fifo, priority, rateLimited, rateLimited.inner
    {
      match queue
      case Priority => if priority.closed then Err(QueueClosed) else Ok
      case RateLimited => rateLimited.inner.Admission()
      case _ => fifo.Admission()
    }

    // Exactly the queue of the job's type takes it, if it has room and is open.
    method Enqueue(job: Job) returns (r: Outcome)
      requires Valid()
      modifies fifo`jobs, fifo`accepted, rateLimited.inner`jobs, rateLimited.inner`accepted
      modifies priority, priority.buf
      ensures Valid()
      ensures r == old(Admission(job.queue))
      ensures r.Ok? <==>
        if job.queue == Priority then !priority.closed
        else if job.queue == RateLimited then
          !rateLimited.inner.closed && |old(rateLimited.inner.jobs)| < rateLimited.inner.capacity
        else !fifo.closed && |old(fifo.jobs)| < fifo.capacity
      ensures priority.contents ==
        if job.queue.Priority? && r.Ok? then Insert(old(priority.contents), job) else old(priority.contents)
      ensures rateLimited.inner.jobs == old(rateLimited.inner.jobs) + if job.queue.RateLimited? && r.Ok? then [job] else []
      ensures fifo.jobs == old(fifo.jobs)
        + if (job.queue.Fifo? || job.queue.Other?) && r.Ok? then [job] else []
    {
      match job.queue {
        case Priority => r := priority.Enqueue(job);
        case RateLimited => r := rateLimited.inner.Enqueue(job);
        case _ => r := fifo.Enqueue(job);
      }
    }

    // `passes` polling passes fit before the deadline. A lower queue is served only
    // when the priority queue is empty; the rate-limited queue only when a token is
    // there, which then pays for the job at once.
    method DequeueOrWait(passes: nat, luck: nat -> Luck) returns (r: Option<Job>)
      requires Valid()
      modifies fifo`jobs, fifo`delivered, rateLimited`tokens, rateLimited.inner`jobs, rateLimited.inner`delivered
      modifies priority`off, priority`len, priority`contents, priority`signal
      ensures Valid()
      ensures r.None? ==> Unchanged(old(priority.contents), old(rateLimited.inner.jobs), old(fifo.jobs), old(rateLimited.tokens))
      ensures r.Some? ==>
        || (old(priority.contents) == [r.value] + priority.contents && Best(r.value, priority.contents)
            && rateLimited.inner.jobs == old(rateLimited.inner.jobs) && fifo.jobs == old(fifo.jobs)
            && rateLimited.tokens == old(rateLimited.tokens))
        || (old(priority.contents) == priority.contents == []
            && old(rateLimited.inner.jobs) == [r.value] + rateLimited.inner.jobs && fifo.jobs == old(fifo.jobs)
            && old(rateLimited.tokens) > 0 && rateLimited.tokens == old(rateLimited.tokens) - 1)
        || (old(priority.contents) == priority.contents == []
            && rateLimited.inner.jobs == old(rateLimited.inner.jobs) && old(fifo.jobs) == [r.value] + fifo.jobs
            && rateLimited.tokens == old(rateLimited.tokens))
      // the priority queue is never passed over, and a pass without bad luck finds what there is
      ensures passes > 0 && old(priority.contents) != [] ==> r == Some(old(priority.contents)[0])
      ensures r.None? ==> forall k :: 0 <= k < passes && luck(k) == Luck(false, false, false) ==>
        fifo.jobs == [] && (rateLimited.inner.jobs == [] || rateLimited.tokens <= 0)
    {
      var n := 0;
      while n < passes
        invariant n <= passes && Valid()
        invariant Unchanged(old(priority.contents), old(rateLimited.inner.jobs), old(fifo.jobs), old(rateLimited.tokens))
        invariant n > 0 ==> priority.contents == []
        invariant forall k :: 0 <= k < n && luck(k) == Luck(false, false, false) ==>
          fifo.jobs == [] && (rateLimited.inner.jobs == [] || rateLimited.tokens <= 0)
      {
        var l := luck(n);
        r := priority.DequeueOrWait(l.priority);
        if r.Some? { return; }
        var tokens := rateLimited.AvailableTokens();
        if tokens > 0 {
          var polled := rateLimited.DequeueOrWait(l.rate, []);
          if polled.Served? { return Some(polled.job); }
        }
        r := fifo.DequeueOrWait(l.fifo);
        if r.Some? { return; }
        n := n + 1;
      }
      r := None;
    }

    ghost predicate Unchanged(p: seq<Job>, q: seq<Job>, f: seq<Job>, tokens: int)
      reads fifo, priority, rateLimited, rateLimited.inner
    {
      priority.contents == p && rateLimited.inner.jobs == q && fifo.jobs == f && rateLimited.tokens == tokens
    }

    // FIFO, then priority, then rate-limited; the first failure ends it. upX(0) is the
    // fate of queue X's listing, upX(k + 1) that of its k-th update.
    method Recover(now: Time, upF: nat -> bool, upP: nat -> bool, upR: nat -> bool)
      returns (r: Outcome, ghost l1: seq<Row>, ghost l2: seq<Row>, ghost l3: seq<Row>)
      requires Valid()
      modifies fifo`jobs, fifo`accepted, rateLimited.inner`jobs, rateLimited.inner`accepted
      modifies priority, priority.buf, fifo.store
      ensures Valid()
      // every table written on the way, and the last, keeps what recovery owes
      ensures JournalKeeps(old(fifo.store.rows), old(fifo.store.journal), fifo.store.journal)
      ensures SameObligations(old(fifo.store.rows), fifo.store.rows)
      ensures fifo.store.Counters() == old(fifo.store.Counters())
      // what success means is spelled out by RestoredMeans
      ensures r.Ok? ==>
        Restored(old(fifo.store.rows), fifo.store.rows, now, l1, l2, l3,
                 old(fifo.jobs), old(priority.contents), old(rateLimited.inner.jobs),
                 fifo.jobs, priority.contents, rateLimited.inner.jobs)
    {
      l1, l2, l3 := [], [], [];
      ghost var db, j0 := fifo.store.rows, fifo.store.journal;
      r, l1 := fifo.Recover(now, upF);
      Keeps(db, db, j0, j0, fifo.store.rows, fifo.store.journal, now, AnyRow());
      if r.Err? { return; }
      ghost var db1, j1 := fifo.store.rows, fifo.store.journal;
      ghost var done: nat;
      r, l2, done := priority.Recover(now, upP);
      Keeps(db, db1, j0, j1, fifo.store.rows, fifo.store.journal, now, PriorityRow());
      if r.Err? { return; }
      ghost var db2, j2 := fifo.store.rows, fifo.store.journal;
      r, l3 := rateLimited.inner.Recover(now, upR);
      Keeps(db, db2, j0, j2, fifo.store.rows, fifo.store.journal, now, AnyRow());
    }
  }

  // The journal has grown, and every table in the new part keeps db's obligations.
  ghost predicate JournalKeeps(db: Table, j0: seq<Table>, j1: seq<Table>) {
    j0 <= j1 && forall k :: |j0| <= k < |j1| ==> SameObligations(db, j1[k])
  }

  lemma Keeps(db: Table, a: Table, j0: seq<Table>, j1: seq<Table>, b: Table, j2: seq<Table>, now: Time, touched: Row -> bool)
    requires SameObligations(db, a) && JournalKeeps(db, j0, j1)
    requires OnlyResets(a, b, now, touched) && SafeSince(a, j1, j2, now, touched)
    ensures SameObligations(db, b) && JournalKeeps(db, j0, j2)
  {
    ResetsKeepObligations(a, b, now, touched);
    ObligationsChain(db, a, b);
    forall k | |j1| <= k < |j2| ensures SameObligations(db, j2[k]) {
      ResetsKeepObligations(a, j2[k], now, touched);
      ObligationsChain(db, a, j2[k]);
    }
  }
}
