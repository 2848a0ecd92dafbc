// The priority queue on its backing array: a slice (off, len) of a buffer that append
// grows, insertion shifts and popping re-slices.
module PriorityQueue {
  import opened Models
  import opened Ordering
  import opened Tables
  import opened JobStore
  import opened FifoQueue

  // A cell holds a job pointer or nil (Empty).
  datatype Cell = Empty | Ptr(job: Job)

  // copy(a[lo+1:hi], a[lo:hi]): the ranges overlap, so the move starts at the far end.
  method CopyUp(a: array<Cell>, lo: nat, hi: nat)
    requires lo < hi <= a.Length
    modifies a
    ensures forall k {:trigger a[k]} :: lo < k < hi ==> a[k] == old(a[k - 1])
    ensures forall k {:trigger a[k]} :: 0 <= k <= lo || hi <= k < a.Length ==> a[k] == old(a[k])
  {
    var k := hi - 1;
    while k > lo
      invariant lo <= k < hi
      invariant forall x {:trigger a[x]} :: k < x < hi ==> a[x] == old(a[x - 1])
      invariant forall x {:trigger a[x]} :: 0 <= x <= k || hi <= x < a.Length ==> a[x] == old(a[x])
    {
      a[k] := a[k - 1];
      k := k - 1;
    }
  }

  class SortedQueue {
    const store: Store
    var buf: array<Cell>
    var off: nat
    var len: nat
    var signal: bool         // a token sits in the one-place signal channel
    var closed: bool
    var doneClosed: bool     // the channel `done`, on which blocked consumers wait too
    ghost var contents: seq<Job>

    ghost predicate Valid()
      reads this, store, buf
    {
      && store.Valid()
      && len == |contents| && Stored()
      && Sorted(contents) && doneClosed == closed
    }

    // The slice starts with the jobs of `contents`.
    ghost predicate Stored()
      reads this, buf
    {
      && |contents| <= len && off + len <= buf.Length
      && forall k :: off <= k < off + |contents| ==> buf[k] == Ptr(contents[k - off])
    }

    constructor (store: Store)
      requires store.Valid()
      ensures Valid() && fresh(buf) && this.store == store && contents == [] && !closed && !signal
    {
      this.store := store;
      buf := new Cell[0];
      off, len, signal, contents := 0, 0, false, [];
      closed, doneClosed := false, false;
    }

    // append(q.jobs, nil): in place when the slice has spare capacity, else into a
    // larger array.
    method Append()
      requires Stored() && len == |contents|
      modifies `buf, `off, `len, buf
      ensures Stored() && len == |contents| + 1
      ensures buf == old(buf) || fresh(buf)
    {
      if off + len == buf.Length {
        var bigger := new Cell[2 * len + 1];
        forall k | 0 <= k < len {
          bigger[k] := buf[off + k];
        }
        buf, off := bigger, 0;
      }
      buf[off + len] := Empty;
      len := len + 1;
    }

    // The insertion scan.
    method Scan(job: Job) returns (i: nat)
      requires Valid()
      ensures i == Slot(contents, job)
      // in front of the first job that is less urgent, or as urgent and younger
      ensures i <= len && forall k :: 0 <= k < i ==>
        contents[k].priority > job.priority || (contents[k].priority == job.priority && contents[k].createdAt <= job.createdAt)
      ensures i < len ==>
        contents[i].priority < job.priority || (contents[i].priority == job.priority && contents[i].createdAt > job.createdAt)
    {
      i := 0;
      while i < len
        invariant i <= len
        invariant forall k :: 0 <= k < i ==> !Outranks(job, contents[k])
      {
        var cur := buf[off + i].job;
        if job.priority > cur.priority { break; }
        if job.priority == cur.priority && job.createdAt < cur.createdAt { break; }
        i := i + 1;
      }
      SlotUnique(contents, job, i);
    }

    method InsertLocked(job: Job)
      requires Valid()
      modifies `buf, `off, `len, `contents, buf
      ensures Valid() && (buf == old(buf) || fresh(buf))
      ensures contents == Insert(old(contents), job)
      ensures MostUrgentFirst(contents) && multiset(contents) == multiset(old(contents)) + multiset{job}
    {
      var i := Scan(job);
      InsertSorted(contents, job);
      InsertWidens(contents, job);
      Place(i, job, Insert(contents, job));
      SortedMeans(contents);
    }

    // Grow the slice by one, move its tail up and write the job into the gap; `wider`
    // is what the slice then holds.
    method Place(i: nat, job: Job, ghost wider: seq<Job>)
      requires Stored() && len == |contents| && Widens(contents, i, job, wider)
      modifies `buf, `off, `len, `contents, buf
      ensures Stored() && len == |contents| && contents == wider
      ensures buf == old(buf) || fresh(buf)
    {
      Append();
      CopyUp(buf, off + i, off + len);
      buf[off + i] := Ptr(job);
      contents := wider;
    }

    method PopLocked() returns (r: Option<Job>)
      requires Valid()
      modifies `off, `len, `contents
      ensures Valid()
      ensures r.None? <==> old(contents) == []
      ensures r.None? ==> contents == []
      ensures r.Some? ==> old(contents) == [r.value] + contents
    {
      if len == 0 { return None; }
      r := Some(buf[off].job);
      off, len := off + 1, len - 1;
      contents := contents[1..];
    }

    method Enqueue(job: Job) returns (r: Outcome)
      requires Valid()
      modifies `buf, `off, `len, `contents, `signal, buf
      ensures Valid() && (buf == old(buf) || fresh(buf))
      ensures r == if closed then Err(QueueClosed) else Ok
      ensures contents == if closed then old(contents) else Insert(old(contents), job)
      ensures r.Ok? ==> signal
    {
      if closed { return Err(QueueClosed); }
      InsertLocked(job);
      signal := true;
      r := Ok;
    }

    // With nobody enqueueing meanwhile the outcome depends on the slice alone: a
    // leftover signal or the timer leads to a second pop that finds the same nothing.
    method DequeueOrWait(timer: bool) returns (r: Option<Job>)
      requires Valid()
      modifies `off, `len, `contents, `signal
      ensures Valid()
      ensures r.None? <==> old(contents) == []
      ensures r.None? ==> contents == []
      ensures r.Some? ==> old(contents) == [r.value] + contents && Best(r.value, contents)
      // more urgent than everything left behind, or as urgent and no younger
      ensures r.Some? ==> forall k :: 0 <= k < |contents| ==>
        || r.value.priority > contents[k].priority
        || (r.value.priority == contents[k].priority && r.value.createdAt <= contents[k].createdAt)
    {
      r := PopLocked();
      if r.Some? {
        HeadIsBest(r.value, contents);
        return;
      }
      if closed { return None; }
      if !signal || doneClosed || timer { return None; }
      signal := false;
      r := PopLocked();
    }

    // Blocked consumers see `done` closed and return; nothing is taken from the slice.
    method Close()
      requires Valid()
      modifies `closed, `doneClosed
      ensures Valid() && closed && doneClosed
    {
      if closed { return; }
      closed := true;
      doneClosed := true;
    }

    // The loop body of Recover for one listed row, on the table and the slice as they are
    // by then: skip it unless it is a priority job; else reset it if it was listed as
    // processing, and enqueue.
    method RecoverOne(listed: Row, now: Time, up: bool) returns (r: Outcome)
      requires Valid()
      modifies `buf, `off, `len, `contents, `signal, buf, store
      ensures Valid() && (buf == old(buf) || fresh(buf))
      ensures store.Counters() == old(store.Counters())
      ensures store.rows == if PriorityRow()(listed) && up then ResetListed(old(store.rows), listed, now)
                            else old(store.rows)
      ensures store.journal == if PriorityRow()(listed) && listed.status.Processing? && up && listed.job.id in store.rows
                               then old(store.journal) + [store.rows] else old(store.journal)
      ensures r.Ok? <==> (PriorityRow()(listed) ==>
        (listed.status.Processing? ==> up && listed.job.id in store.rows) && !closed)
      ensures contents == if r.Ok? && PriorityRow()(listed) then Insert(old(contents), listed.job) else old(contents)
    {
      if !listed.job.queue.Priority? { return Ok; }
      if listed.status.Processing? {
        r := store.UpdateJobStatus(listed.job.id, Pending, now, up);
        if r.Err? { return; }
      }
      r := Enqueue(listed.job);
    }

    // The same step as part of a recovery that nobody disturbs.
    method RecoverNext(list: seq<Row>, i: nat, now: Time, up: bool, ghost before: Table, ghost j0: seq<Table>)
      returns (r: Outcome)
      requires Valid() && i < |list|
      requires Recovering(before, store.rows, list, i, now, PriorityRow(), j0, store.journal)
      modifies `buf, `off, `len, `contents, `signal, buf, store
      ensures Valid() && (buf == old(buf) || fresh(buf))
      ensures store.Counters() == old(store.Counters())
      ensures OnlyResets(before, store.rows, now, PriorityRow())
      ensures SafeSince(before, j0, store.journal, now, PriorityRow())
      ensures r.Ok? ==> Recovering(before, store.rows, list, i + 1, now, PriorityRow(), j0, store.journal)
      ensures contents == if r.Ok? && PriorityRow()(list[i]) then Insert(old(contents), list[i].job) else old(contents)
    {
      r := RecoverOne(list[i], now, up);
      RecoveredOne(before, old(store.rows), store.rows, list, i, now, PriorityRow(), r.Ok?,
                   j0, old(store.journal), store.journal);
    }

    // Only priority jobs; the others belong to the channel queues.
    method Recover(now: Time, up: nat -> bool) returns (r: Outcome, ghost listed: seq<Row>, ghost done: nat)
      requires Valid()
      modifies `buf, `off, `len, `contents, `signal, buf, store
      ensures Valid() && (buf == old(buf) || fresh(buf))
      ensures store.Counters() == old(store.Counters())
      ensures OnlyResets(old(store.rows), store.rows, now, PriorityRow())
      ensures SafeSince(old(store.rows), old(store.journal), store.journal, now, PriorityRow())
      ensures r.Ok? ==> IsListing(old(store.rows), listed)
      // the first `done` listed rows have been dealt with: on success, all of them
      ensures done <= |listed| && (r.Ok? ==> done == |listed|)
      ensures contents == After(old(contents), listed, done, PriorityRow())
      ensures r.Ok? ==> store.rows == ResetAll(old(store.rows), now, PriorityRow())
    {
      listed, done := [], 0;
      var list := store.ListPendingJobs(up(0));
      if list.Failure? { return Err(list.error), [], 0; }
      listed := list.value;
      r, done := RecoverListed(list.value, now, up);
    }

    // The loop of Recover; up(k + 1) is the fate of the update for the k-th listed job.
    method RecoverListed(todo: seq<Row>, now: Time, up: nat -> bool) returns (r: Outcome, done: nat)
      requires Valid() && IsListing(store.rows, todo)
      modifies `buf, `off, `len, `contents, `signal, buf, store
      ensures Valid() && (buf == old(buf) || fresh(buf))
      ensures store.Counters() == old(store.Counters())
      ensures OnlyResets(old(store.rows), store.rows, now, PriorityRow())
      ensures SafeSince(old(store.rows), old(store.journal), store.journal, now, PriorityRow())
      ensures done <= |todo| && (r.Ok? ==> done == |todo|)
      ensures contents == After(old(contents), todo, done, PriorityRow())
      ensures r.Ok? ==> store.rows == ResetAll(old(store.rows), now, PriorityRow())
    {
      done := 0;
      ghost var before, j0 := store.rows, store.journal;
      while done < |todo|
        invariant done <= |todo|
        invariant Valid() && (buf == old(buf) || fresh(buf))
        invariant store.Counters() == old(store.Counters())
        invariant contents == After(old(contents), todo, done, PriorityRow())
        invariant Recovering(before, store.rows, todo, done, now, PriorityRow(), j0, store.journal)
      {
        r := RecoverNext(todo, done, now, up(done + 1), before, j0);
        if r.Err? { return; }
        done := done + 1;
      }
      AllReset(before, store.rows, todo, now, PriorityRow());
      r := Ok;
    }

    // The loop body of sweep for one listed row; `ok` says that nothing failed.
    method SweepOne(listed: Row, now: Time, up: bool) returns (ok: bool)
      requires Valid()
      modifies `buf, `off, `len, `contents, `signal, buf, store
      ensures Valid() && (buf == old(buf) || fresh(buf))
      ensures store.Counters() == old(store.Counters())
      ensures store.rows == if SweptPriorityRow(now)(listed) && up then ResetListed(old(store.rows), listed, now)
                            else old(store.rows)
      ensures ok <==> (SweptPriorityRow(now)(listed) ==>
        (listed.status.Processing? ==> up && listed.job.id in store.rows) && !closed)
      ensures contents == if SweptPriorityRow(now)(listed) && ok then Insert(old(contents), listed.job) else old(contents)
      // a priority job that is pending, or processing with no update for ten minutes
      ensures SweptPriorityRow(now)(listed) <==>
        listed.job.queue == Priority
        && (listed.status == Pending || (listed.status == Processing && now - listed.updatedAt > 600_000_000_000))
    {
      ok := true;
      if !listed.job.queue.Priority? { return; }
      match listed.status {
        case Pending =>
          var e := Enqueue(listed.job);
          ok := e.Ok?;
        case Processing =>
          if now - listed.updatedAt > 10 * MINUTE {
            var u := store.UpdateJobStatus(listed.job.id, Pending, now, up);
            if u.Err? { return false; }
            var e := Enqueue(listed.job);
            ok := e.Ok?;
          }
        case _ =>
      }
    }

    // The same step as part of a pass that nobody disturbs.
    method SweepNext(list: seq<Row>, i: nat, now: Time, up: bool, ghost before: Table) returns (ok: bool)
      requires Valid() && i < |list| && IsListing(before, list)
      requires Untouched(store.rows, list, i) && OnlyResets(before, store.rows, now, StalePriorityRow(now))
      modifies `buf, `off, `len, `contents, `signal, buf, store
      ensures Valid() && (buf == old(buf) || fresh(buf))
      ensures store.Counters() == old(store.Counters())
      ensures Untouched(store.rows, list, i + 1) && OnlyResets(before, store.rows, now, StalePriorityRow(now))
      ensures ok && old(Resetting(before, store.rows, list, i, now, StalePriorityRow(now))) ==>
        Resetting(before, store.rows, list, i + 1, now, StalePriorityRow(now))
      ensures contents == if SweptPriorityRow(now)(list[i]) && ok then Insert(old(contents), list[i].job) else old(contents)
    {
      ok := SweepOne(list[i], now, up);
      DealtWith(before, old(store.rows), store.rows, list, i, now, StalePriorityRow(now), ok);
    }

    // The sweeper's pass over priority jobs keeps the slice sorted (Valid).
    method Sweep(now: Time, up: nat -> bool) returns (ghost listed: seq<Row>, ghost clean: bool)
      requires Valid()
      modifies `buf, `off, `len, `contents, `signal, buf, store
      ensures Valid() && (buf == old(buf) || fresh(buf))
      ensures store.Counters() == old(store.Counters())
      ensures OnlyResets(old(store.rows), store.rows, now, StalePriorityRow(now))
      ensures clean ==> IsListing(old(store.rows), listed)
      ensures clean ==> contents == After(old(contents), listed, |listed|, SweptPriorityRow(now))
      ensures clean ==> store.rows == ResetAll(old(store.rows), now, StalePriorityRow(now))
    {
      var list := store.ListPendingJobs(up(0));
      listed, clean := [], false;
      if list.Failure? { return; }
      listed := list.value;
      clean := SweepListed(list.value, now, up);
    }

    // The loop of sweep.
    method SweepListed(todo: seq<Row>, now: Time, up: nat -> bool) returns (ghost clean: bool)
      requires Valid() && IsListing(store.rows, todo)
      modifies `buf, `off, `len, `contents, `signal, buf, store
      ensures Valid() && (buf == old(buf) || fresh(buf))
      ensures store.Counters() == old(store.Counters())
      ensures OnlyResets(old(store.rows), store.rows, now, StalePriorityRow(now))
      ensures clean ==> contents == After(old(contents), todo, |todo|, SweptPriorityRow(now))
      ensures clean ==> store.rows == ResetAll(old(store.rows), now, StalePriorityRow(now))
    {
      clean := true;
      ghost var before := store.rows;
      var i := 0;
      while i < |todo|
        invariant i <= |todo|
        invariant Valid() && (buf == old(buf) || fresh(buf))
        invariant store.Counters() == old(store.Counters())
        invariant clean ==> contents == After(old(contents), todo, i, SweptPriorityRow(now))
        invariant Untouched(store.rows, todo, i)
        invariant OnlyResets(before, store.rows, now, StalePriorityRow(now))
        invariant clean ==> Resetting(before, store.rows, todo, i, now, StalePriorityRow(now))
      {
        var ok := SweepNext(todo, i, now, up(i + 1), before);
        clean := clean && ok;
        i := i + 1;
      }
      if clean { AllReset(before, store.rows, todo, now, StalePriorityRow(now)); }
    }
  }

  // The slice after the first i listed rows: those that p selects inserted in turn.
  function After(q: seq<Job>, list: seq<Row>, i: nat, p: Row -> bool): seq<Job>
    requires i <= |list|
  {
    if i == 0 then q
    else
      var prev := After(q, list, i - 1, p);
      if p(list[i - 1]) then Insert(prev, list[i - 1].job) else prev
  }

  lemma AfterIsInsertAll(q: seq<Job>, list: seq<Row>, p: Row -> bool)
    ensures After(q, list, |list|, p) == InsertAll(q, JobsOf(Select(list, p)))
  {
    AfterPrefix(q, list, |list|, p);
    assert list[..|list|] == list;
  }

  lemma {:induction false} AfterPrefix(q: seq<Job>, list: seq<Row>, i: nat, p: Row -> bool)
    requires i <= |list|
    ensures After(q, list, i, p) == InsertAll(q, JobsOf(Select(list[..i], p)))
  {
    if i > 0 {
      AfterPrefix(q, list, i - 1, p);
      SelectGrows(q, list, i - 1, p);
    }
  }

  // One more listed row: inserted if selected, passed over otherwise.
  lemma SelectGrows(q: seq<Job>, list: seq<Row>, i: nat, p: Row -> bool)
    requires i < |list|
    ensures var had, has := JobsOf(Select(list[..i], p)), JobsOf(Select(list[..i + 1], p));
            InsertAll(q, has) == if p(list[i]) then Insert(InsertAll(q, had), list[i].job) else InsertAll(q, had)
  {
    assert list[..i + 1] == list[..i] + [list[i]];
    SelectSnoc(list[..i], list[i], p);
    var had := JobsOf(Select(list[..i], p));
    if p(list[i]) {
      assert JobsOf(Select(list[..i], p) + [list[i]]) == had + [list[i].job];
      InsertAllSnoc(q, had, list[i].job);
    } else {
      assert Select(list[..i + 1], p) == Select(list[..i], p);
    }
  }
}
