// The FIFO queue: a buffered channel for delivery over the Store for persistence.
// One call at a time; CloseProtocol covers concurrent calls.
module FifoQueue {
  import opened Models
  import opened Tables
  import opened JobStore
  import opened Counting
  import RetryBudget

  datatype Received = Delivered(job: Job) | Nil | WouldBlock

  class MemoryQueue {
    const store: Store
    const capacity: nat
    var jobs: seq<Job>     // contents of the channel
    var closed: bool              // set under the mutex when shutdown starts
    var jobsClosed: bool          // the channel itself is closed
    ghost var accepted: seq<Job>
    ghost var delivered: seq<Job>

    ghost predicate Valid()
      reads this, store
    {
      && store.Valid()
      && |jobs| <= capacity && jobsClosed == closed
      && accepted == delivered + jobs
    }

    constructor (store: Store, capacity: nat)
      requires store.Valid()
      ensures Valid() && this.store == store && this.capacity == capacity
      ensures jobs == [] && !closed && accepted == delivered == []
    {
      this.store, this.capacity := store, capacity;
      jobs, closed, jobsClosed := [], false, false;
      accepted, delivered := [], [];
    }

    // With nobody draining the channel meanwhile, a full channel means the five-second
    // timeout.
    function Admission(): Outcome
      reads this
    {
      if closed then Err(QueueClosed) else if |jobs| < capacity then Ok else Err(QueueFull)
    }

    method Enqueue(job: Job) returns (r: Outcome)
      requires Valid()
      modifies `jobs, `accepted
      ensures Valid()
      ensures r == old(Admission())
      ensures closed ==> r == Err(QueueClosed)
      ensures !closed ==> r == if |old(jobs)| < capacity then Ok else Err(QueueFull)
      ensures jobs == if r.Ok? then old(jobs) + [job] else old(jobs)
      ensures accepted == if r.Ok? then old(accepted) + [job] else old(accepted)
    {
      if closed { return Err(QueueClosed); }
      if |jobs| >= capacity { return Err(QueueFull); }
      jobs := jobs + [job];
      accepted := accepted + [job];
      r := Ok;
    }

    method Dequeue() returns (r: Received)
      requires Valid()
      modifies `jobs, `delivered
      ensures Valid()
      ensures r.Delivered? ==> old(jobs) == [r.job] + jobs && delivered == old(delivered) + [r.job]
      ensures r.Nil? <==> old(jobs) == [] && closed
      ensures r.Nil? ==> delivered == accepted
      ensures !r.Delivered? ==> old(jobs) == [] && jobs == [] && delivered == old(delivered)
    {
      if jobs != [] {
        r := Delivered(jobs[0]);
        delivered := delivered + [jobs[0]];
        jobs := jobs[1..];
      } else if jobsClosed {
        r := Nil;
      } else {
        r := WouldBlock;
      }
    }

    // `timer` says that the select takes the timer although a job is ready, which a
    // zero wait allows.
    method DequeueOrWait(timer: bool) returns (r: Option<Job>)
      requires Valid()
      modifies `jobs, `delivered
      ensures Valid()
      ensures r.None? <==> timer || old(jobs) == []
      ensures r.Some? ==> old(jobs) == [r.value] + jobs && delivered == old(delivered) + [r.value]
      ensures r.None? ==> jobs == old(jobs) && delivered == old(delivered)
    {
      if timer || jobs == [] { return None; }
      r := Some(jobs[0]);
      delivered := delivered + [jobs[0]];
      jobs := jobs[1..];
    }

    method Close()
      requires Valid()
      modifies `closed, `jobsClosed
      ensures Valid() && closed
    {
      if closed { return; }
      closed := true;
      jobsClosed := true;
    }

    method Ack(id: JobId, now: Time, up: bool) returns (r: Outcome)
      requires Valid()
      modifies store
      ensures Valid()
      ensures r.Ok? <==> up && id in old(store.rows)
      ensures store.rows == if r.Ok? then SetStatus(old(store.rows), id, Completed, now) else old(store.rows)
      ensures r.Ok? ==>
        store.rows[id] == old(store.rows)[id].(status := Completed, updatedAt := now, processedAt := Some(now))
      ensures forall q ::
        Read(store.completed, q) == Read(old(store.completed), q) + Bit(r.Ok? && q == store.rows[id].job.queue)
      ensures forall q :: Read(store.failed, q) == Read(old(store.failed), q)
      ensures store.retried == old(store.retried)
    {
      r := store.UpdateJobStatus(id, Completed, now, up);
    }

    method SetProcessing(id: JobId, now: Time, up: bool) returns (r: Outcome)
      requires Valid()
      modifies store
      ensures Valid()
      ensures r.Ok? <==> up && id in old(store.rows)
      ensures store.rows == if r.Ok? then SetStatus(old(store.rows), id, Processing, now) else old(store.rows)
      ensures r.Ok? ==> store.rows[id] == old(store.rows)[id].(status := Processing, updatedAt := now)
      ensures store.Counters() == old(store.Counters())
    {
      r := store.UpdateJobStatus(id, Processing, now, up);
    }

    // Counts one attempt; fails the job for good when the count reaches the limit and
    // re-enqueues it otherwise. The re-enqueue can fail after the row was written.
    method Nack(id: JobId, now: Time, upRead: bool, upWrite: bool) returns (r: Outcome)
      requires Valid()
      modifies `jobs, `accepted, store
      ensures Valid()
      ensures !(upRead && upWrite && id in old(store.rows)) ==>
        r.Err? && store.rows == old(store.rows) && jobs == old(jobs) && store.Counters() == old(store.Counters())
      ensures upRead && upWrite && id in old(store.rows) ==>
        var row := old(store.rows)[id];
        && store.rows == old(store.rows)[id := RetryBudget.Apply(row, RetryBudget.Nack(now))]
        && store.rows[id].retries == row.retries + 1 && store.rows[id].updatedAt == now
        && if row.retries + 1 >= row.maxRetries
           then r.Ok? && store.rows[id].status == Failed && jobs == old(jobs)
           else r == old(Admission()) && store.rows[id].status == Pending
                && jobs == if r.Ok? then old(jobs) + [row.job] else old(jobs)
      // exactly one counter moves, by one: JobsFailed or JobsRetried of the job's queue
      ensures upRead && upWrite && id in old(store.rows) ==>
        var row, last := old(store.rows)[id], store.rows[id].status.Failed?;
        && store.completed == old(store.completed)
        && forall q ::
             && Read(store.failed, q) == Read(old(store.failed), q) + Bit(last && q == row.job.queue)
             && Read(store.retried, q) == Read(old(store.retried), q) + Bit(!last && q == row.job.queue)
    {
      var got := store.GetJob(id, upRead);
      if got.Failure? { return Err(got.error); }
      if got.value.None? { return Err(NotFound); }
      var row := got.value.value;
      var retries := row.retries + 1;
      if retries >= row.maxRetries {
        r := store.UpdateJobRetry(id, Failed, retries, now, upWrite);
        return;
      }
      r := store.UpdateJobRetry(id, Pending, retries, now, upWrite);
      if r.Err? { return; }
      r := Enqueue(row.job);
    }

    // Back to pending without touching the retry count.
    method Requeue(id: JobId, now: Time, upWrite: bool, upRead: bool) returns (r: Outcome)
      requires Valid()
      modifies `jobs, `accepted, store`rows, store`journal
      ensures Valid()
      ensures store.rows == if upWrite then Tables.Requeue(old(store.rows), id, now) else old(store.rows)
      ensures upWrite && id in old(store.rows) ==>
        store.rows[id] == old(store.rows)[id].(status := Pending, updatedAt := now)
      ensures !(upWrite && upRead && id in old(store.rows)) ==> r.Err? && jobs == old(jobs)
      ensures upWrite && upRead && id in old(store.rows) ==>
        r == old(Admission()) && jobs == if r.Ok? then old(jobs) + [old(store.rows)[id].job] else old(jobs)
      ensures forall x :: x in old(store.rows) ==>
        x in store.rows && store.rows[x].retries == old(store.rows)[x].retries
    {
      r := store.RequeueJob(id, now, upWrite);
      if r.Err? { return; }
      var got := store.GetJob(id, upRead);
      if got.Failure? || got.value.None? { return Err(NotFound); }
      r := Enqueue(got.value.value.job);
    }

    // Only a failed job can be retried.
    method Retry(id: JobId, extra: int, now: Time, upWrite: bool, upRead: bool) returns (r: Outcome)
      requires Valid()
      modifies `jobs, `accepted, store`rows, store`journal
      ensures Valid()
      ensures !(upWrite && Resettable(old(store.rows), id)) ==>
        r.Err? && store.rows == old(store.rows) && jobs == old(jobs)
      ensures upWrite && Resettable(old(store.rows), id) ==>
        && store.rows == ResetForRetry(store.backend, old(store.rows), id, extra, now)
        && store.rows[id].status == Pending && store.rows[id].updatedAt == now
        && if upRead then r == old(Admission()) && jobs == if r.Ok? then old(jobs) + [old(store.rows)[id].job] else old(jobs)
           else r.Err? && jobs == old(jobs)
    {
      r := store.ResetJobForRetry(id, extra, now, upWrite);
      if r.Err? { return; }
      var got := store.GetJob(id, upRead);
      if got.Failure? || got.value.None? { return Err(NotFound); }
      r := Enqueue(got.value.value.job);
    }

    // The loop body of Recover for one listed row, on the table and the channel as they
    // are by then: reset the row if it was listed as processing, then enqueue its job.
    method RecoverOne(listed: Row, now: Time, up: bool) returns (r: Outcome)
      requires Valid()
      modifies `jobs, `accepted, store
      ensures Valid()
      ensures store.Counters() == old(store.Counters())
      ensures store.rows == if up then ResetListed(old(store.rows), listed, now) else old(store.rows)
      ensures up && listed.status == Processing && listed.job.id in old(store.rows) ==>
        store.rows[listed.job.id] == old(store.rows)[listed.job.id].(status := Pending, updatedAt := now)
      ensures store.journal == if listed.status.Processing? && up && listed.job.id in store.rows
                               then old(store.journal) + [store.rows] else old(store.journal)
      ensures r.Ok? <==>
        (listed.status.Processing? ==> up && listed.job.id in store.rows) && old(Admission()).Ok?
      ensures jobs == if r.Ok? then old(jobs) + [listed.job] else old(jobs)
    {
      if listed.status.Processing? {
        r := store.UpdateJobStatus(listed.job.id, Pending, now, up);
        if r.Err? { return; }
      }
      r := Enqueue(listed.job);
    }

    // The same step as part of a recovery that nobody disturbs.
    method RecoverNext(list: seq<Row>, i: nat, now: Time, up: bool, ghost before: Table, ghost j0: seq<Table>)
      returns (r: Outcome)
      requires Valid() && i < |list|
      requires Recovering(before, store.rows, list, i, now, AnyRow(), j0, store.journal)
      modifies `jobs, `accepted, store
      ensures Valid()
      ensures store.Counters() == old(store.Counters())
      ensures OnlyResets(before, store.rows, now, AnyRow())
      ensures SafeSince(before, j0, store.journal, now, AnyRow())
      ensures r.Ok? ==> Recovering(before, store.rows, list, i + 1, now, AnyRow(), j0, store.journal)
      ensures jobs == if r.Ok? then old(jobs) + [list[i].job] else old(jobs)
    {
      r := RecoverOne(list[i], now, up);
      RecoveredOne(before, old(store.rows), store.rows, list, i, now, AnyRow(), r.Ok?,
                   j0, old(store.journal), store.journal);
    }

    // Re-enqueues every non-terminal job, whatever its queue type. up(0) is the fate of
    // the listing and up(k + 1) that of the update for the k-th listed job.
    method Recover(now: Time, up: nat -> bool) returns (r: Outcome, ghost listed: seq<Row>)
      requires Valid()
      modifies `jobs, `accepted, store
      ensures Valid()
      ensures store.Counters() == old(store.Counters())
      ensures OnlyResets(old(store.rows), store.rows, now, AnyRow())
      ensures SafeSince(old(store.rows), old(store.journal), store.journal, now, AnyRow())
      ensures r.Ok? ==> IsListing(old(store.rows), listed) && jobs == old(jobs) + JobsOf(listed)
      // a recovery that fails has enqueued a prefix of the listing
      ensures exists k :: 0 <= k <= |listed| && jobs == old(jobs) + JobsOf(listed[..k])
      ensures r.Ok? ==> store.rows == ResetAll(old(store.rows), now, AnyRow())
    {
      listed := [];
      var list := store.ListPendingJobs(up(0));
      if list.Failure? {
        assert jobs == old(jobs) + JobsOf(listed[..0]);
        return Err(list.error), [];
      }
      listed := list.value;
      r := RecoverListed(list.value, now, up);
    }

    // The loop of Recover.
    method RecoverListed(todo: seq<Row>, now: Time, up: nat -> bool) returns (r: Outcome)
      requires Valid() && IsListing(store.rows, todo)
      modifies `jobs, `accepted, store
      ensures Valid()
      ensures store.Counters() == old(store.Counters())
      ensures OnlyResets(old(store.rows), store.rows, now, AnyRow())
      ensures SafeSince(old(store.rows), old(store.journal), store.journal, now, AnyRow())
      ensures r.Ok? ==> jobs == old(jobs) + JobsOf(todo)
      ensures exists k :: 0 <= k <= |todo| && jobs == old(jobs) + JobsOf(todo[..k])
      ensures r.Ok? ==> store.rows == ResetAll(old(store.rows), now, AnyRow())
    {
      ghost var before := store.rows;
      var i := 0;
      while i < |todo|
        invariant i <= |todo|
        invariant Valid()
        invariant store.Counters() == old(store.Counters())
        invariant jobs == old(jobs) + JobsOf(todo[..i])
        invariant Recovering(before, store.rows, todo, i, now, AnyRow(), old(store.journal), store.journal)
      {
        r := RecoverNext(todo, i, now, up(i + 1), before, old(store.journal));
        if r.Err? { return; }
        JobsOfNext(todo, i);
        i := i + 1;
      }
      assert todo[..i] == todo;
      AllReset(before, store.rows, todo, now, AnyRow());
      r := Ok;
    }

    // The loop body of sweep for one listed row; `ok` says that nothing failed.
    method SweepOne(listed: Row, now: Time, up: bool) returns (ok: bool)
      requires Valid()
      modifies `jobs, `accepted, store
      ensures Valid()
      ensures store.Counters() == old(store.Counters())
      ensures store.rows == if SweptRow(now)(listed) && up then ResetListed(old(store.rows), listed, now)
                            else old(store.rows)
      ensures ok <==> (SweptRow(now)(listed) ==>
        (listed.status.Processing? ==> up && listed.job.id in store.rows) && old(Admission()).Ok?)
      ensures jobs == if SweptRow(now)(listed) && ok then old(jobs) + [listed.job] else old(jobs)
      // pending, or processing with no update for ten minutes
      ensures SweptRow(now)(listed) <==>
        listed.status == Pending || (listed.status == Processing && now - listed.updatedAt > 600_000_000_000)
    {
      ok := true;
      match listed.status {
        case Pending =>
          var e := Enqueue(listed.job);
          ok := e.Ok?;
        case Processing =>
          if now - listed.updatedAt > 10 * MINUTE {
            var u := store.UpdateJobStatus(listed.job.id, Pending, now, up);
            if u.Err? { return false; }
            var e := Enqueue(listed.job);
            ok := e.Ok?;
          }
        case _ =>
      }
    }

    // The same step as part of a pass that nobody disturbs.
    method SweepNext(list: seq<Row>, i: nat, now: Time, up: bool, ghost before: Table) returns (ok: bool)
      requires Valid() && i < |list| && IsListing(before, list)
      requires Untouched(store.rows, list, i) && OnlyResets(before, store.rows, now, StaleRow(now))
      modifies `jobs, `accepted, store
      ensures Valid()
      ensures store.Counters() == old(store.Counters())
      ensures Untouched(store.rows, list, i + 1) && OnlyResets(before, store.rows, now, StaleRow(now))
      ensures ok && old(Resetting(before, store.rows, list, i, now, StaleRow(now))) ==>
        Resetting(before, store.rows, list, i + 1, now, StaleRow(now))
      ensures jobs == if SweptRow(now)(list[i]) && ok then old(jobs) + [list[i].job] else old(jobs)
    {
      ok := SweepOne(list[i], now, up);
      DealtWith(before, old(store.rows), store.rows, list, i, now, StaleRow(now), ok);
    }

    // One pass of the sweeper: pending jobs are re-enqueued, processing jobs older than
    // ten minutes are reset and re-enqueued; failures are logged and skipped. `clean`
    // says that nothing failed.
    method Sweep(now: Time, up: nat -> bool) returns (ghost listed: seq<Row>, ghost clean: bool)
      requires Valid()
      modifies `jobs, `accepted, store
      ensures Valid()
      ensures store.Counters() == old(store.Counters())
      ensures OnlyResets(old(store.rows), store.rows, now, StaleRow(now))
      ensures old(jobs) <= jobs
      ensures clean ==> IsListing(old(store.rows), listed)
      ensures clean ==> jobs == Appended(old(jobs), listed, |listed|, SweptRow(now))
      ensures clean ==> store.rows == ResetAll(old(store.rows), now, StaleRow(now))
    {
      var list := store.ListPendingJobs(up(0));
      listed, clean := [], false;
      if list.Failure? { return; }
      var todo := list.value;
      listed, clean := todo, true;
      ghost var before := store.rows;
      var i := 0;
      while i < |todo|
        invariant i <= |todo|
        invariant Valid()
        invariant old(jobs) <= jobs
        invariant store.Counters() == old(store.Counters())
        invariant clean ==> jobs == Appended(old(jobs), todo, i, SweptRow(now))
        invariant Untouched(store.rows, todo, i)
        invariant OnlyResets(before, store.rows, now, StaleRow(now))
        invariant clean ==> Resetting(before, store.rows, todo, i, now, StaleRow(now))
      {
        var ok := SweepNext(todo, i, now, up(i + 1), before);
        clean := clean && ok;
        i := i + 1;
      }
      if clean { AllReset(before, store.rows, todo, now, StaleRow(now)); }
    }
  }

  lemma JobsOfNext(list: seq<Row>, i: nat)
    requires i < |list|
    ensures JobsOf(list[..i + 1]) == JobsOf(list[..i]) + [list[i].job]
  {
  }

  // The channel after the first i listed rows: those that p selects appended in turn.
  function Appended(q: seq<Job>, list: seq<Row>, i: nat, p: Row -> bool): seq<Job>
    requires i <= |list|
  {
    if i == 0 then q
    else
      var prev := Appended(q, list, i - 1, p);
      if p(list[i - 1]) then prev + [list[i - 1].job] else prev
  }

  lemma {:induction false} AppendedIsSelect(q: seq<Job>, list: seq<Row>, i: nat, p: Row -> bool)
    requires i <= |list|
    ensures Appended(q, list, i, p) == q + JobsOf(Select(list[..i], p))
  {
    if i > 0 {
      AppendedIsSelect(q, list, i - 1, p);
      assert list[..i] == list[..i - 1] + [list[i - 1]];
      SelectSnoc(list[..i - 1], list[i - 1], p);
    }
  }

  function Reset(row: Row, now: Time, touched: Row -> bool): Row {
    if row.status.Processing? && touched(row) then Stamp(row, Pending, now) else row
  }

  // Rows from the i-th listed one on still stand as listed.
  ghost predicate Untouched(db: Table, list: seq<Row>, i: nat)
    requires i <= |list|
  {
    forall k :: i <= k < |list| ==> list[k].job.id in db && db[list[k].job.id] == list[k]
  }

  // The first i listed rows have been dealt with and nothing else has changed.
  ghost predicate Resetting(a: Table, b: Table, list: seq<Row>, i: nat, now: Time, touched: Row -> bool)
    requires i <= |list|
  {
    && IsListing(a, list)
    && OnlyResets(a, b, now, touched)
    && Untouched(b, list, i)
    && forall k :: 0 <= k < i ==> list[k].job.id in b && b[list[k].job.id] == Reset(list[k], now, touched)
  }

  // The i-th listed row has been dealt with: reset if `touched` wants it, or left alone
  // because that failed.
  lemma DealtWith(a: Table, b: Table, b': Table, list: seq<Row>, i: nat, now: Time, touched: Row -> bool, ok: bool)
    requires i < |list| && IsListing(a, list) && Untouched(b, list, i) && OnlyResets(a, b, now, touched)
    requires b' == b || (touched(list[i]) && b' == ResetListed(b, list[i], now))
    requires ok && touched(list[i]) ==> b' == ResetListed(b, list[i], now)
    ensures OnlyResets(a, b', now, touched) && Untouched(b', list, i + 1)
    ensures ok && Resetting(a, b, list, i, now, touched) ==> Resetting(a, b', list, i + 1, now, touched)
  {
    var row := list[i];
    assert a[row.job.id] == row;
    if row.status.Processing? && touched(row) {
      SetStatusResets(a, b, row.job.id, now, touched);
    }
  }

  // The journal has grown from j0 to j1, and every table recorded in between is a
  // partial reset of a.
  ghost predicate SafeSince(a: Table, j0: seq<Table>, j1: seq<Table>, now: Time, touched: Row -> bool) {
    && j0 <= j1
    && forall k :: |j0| <= k < |j1| ==> OnlyResets(a, j1[k], now, touched)
  }

  lemma SafeExtend(a: Table, j0: seq<Table>, j1: seq<Table>, j2: seq<Table>, b: Table, now: Time, touched: Row -> bool)
    requires SafeSince(a, j0, j1, now, touched)
    requires j2 == j1 || (j2 == j1 + [b] && OnlyResets(a, b, now, touched))
    ensures SafeSince(a, j0, j2, now, touched)
  {
  }

  ghost predicate Recovering(a: Table, b: Table, list: seq<Row>, i: nat, now: Time, touched: Row -> bool,
                             j0: seq<Table>, j: seq<Table>)
    requires i <= |list|
  {
    Resetting(a, b, list, i, now, touched) && SafeSince(a, j0, j, now, touched)
  }

  // One listed row further, or given up on it; the journal has grown by what was written.
  lemma RecoveredOne(a: Table, b: Table, b': Table, list: seq<Row>, i: nat, now: Time, touched: Row -> bool, ok: bool,
                     j0: seq<Table>, j: seq<Table>, j': seq<Table>)
    requires i < |list| && Recovering(a, b, list, i, now, touched, j0, j)
    requires b' == b || (touched(list[i]) && b' == ResetListed(b, list[i], now))
    requires ok && touched(list[i]) ==> b' == ResetListed(b, list[i], now)
    requires j' == j || j' == j + [b']
    ensures OnlyResets(a, b', now, touched) && SafeSince(a, j0, j', now, touched)
    ensures ok ==> Recovering(a, b', list, i + 1, now, touched, j0, j')
  {
    DealtWith(a, b, b', list, i, now, touched, ok);
    SafeExtend(a, j0, j, j', b', now, touched);
  }

  lemma AllReset(a: Table, b: Table, list: seq<Row>, now: Time, touched: Row -> bool)
    requires Resetting(a, b, list, |list|, now, touched)
    ensures b == ResetAll(a, now, touched)
  {
    var c := ResetAll(a, now, touched);
    forall id | id in a ensures b[id] == c[id] {
      if Live(a, id) {
        var i :| 0 <= i < |list| && list[i].job.id == id;
      }
    }
  }
}
