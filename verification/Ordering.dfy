// The order of the priority queue: the scan in SortedQueue.insertLocked and the
// ORDER BY of ListPendingJobs, as pure functions on sequences of jobs.
module Ordering {
  import opened Models

  // The condition on which the insertion scan stops at `cur`.
  predicate Outranks(job: Job, cur: Job) {
    || job.priority > cur.priority
    || (job.priority == cur.priority && job.createdAt < cur.createdAt)
  }

  predicate SameKey(a: Job, b: Job) {
    a.priority == b.priority && a.createdAt == b.createdAt
  }

  predicate Sorted(q: seq<Job>) {
    forall i, k :: 0 <= i < k < |q| ==> !Outranks(q[k], q[i])
  }

  // On the fields: the more urgent first, and among equals the older.
  ghost predicate MostUrgentFirst(q: seq<Job>) {
    forall i, k :: 0 <= i < k < |q| ==>
      q[i].priority > q[k].priority || (q[i].priority == q[k].priority && q[i].createdAt <= q[k].createdAt)
  }

  lemma SortedMeans(q: seq<Job>)
    ensures Sorted(q) <==> MostUrgentFirst(q)
  {
    if Sorted(q) {
      forall i, k | 0 <= i < k < |q|
        ensures q[i].priority > q[k].priority || (q[i].priority == q[k].priority && q[i].createdAt <= q[k].createdAt)
      {
        assert !Outranks(q[k], q[i]);
      }
    }
  }

  // First position whose occupant the new job outranks, or the end.
  function Slot(q: seq<Job>, job: Job): (i: nat)
    ensures i <= |q|
    ensures forall k :: 0 <= k < i ==> !Outranks(job, q[k])
    ensures i < |q| ==> Outranks(job, q[i])
  {
    if q == [] || Outranks(job, q[0]) then 0 else 1 + Slot(q[1..], job)
  }

  function Insert(q: seq<Job>, job: Job): seq<Job> {
    var i := Slot(q, job);
    q[..i] + [job] + q[i..]
  }

  lemma SlotUnique(q: seq<Job>, job: Job, i: nat)
    requires i <= |q|
    requires forall k :: 0 <= k < i ==> !Outranks(job, q[k])
    requires i < |q| ==> Outranks(job, q[i])
    ensures i == Slot(q, job)
  {
  }

  // r is q with job put in at position i, cell by cell.
  ghost predicate Widens(q: seq<Job>, i: nat, job: Job, r: seq<Job>) {
    && i <= |q| && |r| == |q| + 1
    && forall k {:trigger r[k]} :: 0 <= k < |r| ==> r[k] == if k < i then q[k] else if k == i then job else q[k - 1]
  }

  lemma InsertWidens(q: seq<Job>, job: Job)
    ensures Widens(q, Slot(q, job), job, Insert(q, job))
  {
  }

  lemma WidenedSorted(q: seq<Job>, job: Job, r: seq<Job>)
    requires Sorted(q) && Widens(q, Slot(q, job), job, r)
    ensures Sorted(r)
  {
    var i := Slot(q, job);
    forall a, b | 0 <= a < b < |r| ensures !Outranks(r[b], r[a]) {
      // everything from the slot on is no better than q[i], which job outranks
      if a == i {
        assert b - 1 == i || !Outranks(q[b - 1], q[i]);
      }
    }
  }

  // Putting one element in anywhere adds just that one.
  lemma PutKeeps<T>(q: seq<T>, i: nat, x: T)
    requires i <= |q|
    ensures multiset(q[..i] + [x] + q[i..]) == multiset(q) + multiset{x}
  {
    var a, b := q[..i], q[i..];
    assert q == a + b;
    assert multiset(a + [x] + b) == multiset(a) + multiset([x]) + multiset(b);
  }

  lemma TakeKeeps<T>(q: seq<T>)
    requires q != []
    ensures multiset(q[1..]) + multiset{q[0]} == multiset(q)
  {
    var rest := q[1..];
    assert q == [q[0]] + rest;
  }

  // Insertion keeps the slice sorted and keeps every copy.
  lemma InsertSorted(q: seq<Job>, job: Job)
    requires Sorted(q)
    ensures Sorted(Insert(q, job))
    ensures multiset(Insert(q, job)) == multiset(q) + multiset{job}
  {
    InsertWidens(q, job);
    WidenedSorted(q, job, Insert(q, job));
    PutKeeps(q, Slot(q, job), job);
  }

  // `job` outranks or ties everything in q.
  ghost predicate Best(job: Job, q: seq<Job>) {
    forall k :: 0 <= k < |q| ==> !Outranks(q[k], job)
  }

  lemma HeadIsBest(job: Job, q: seq<Job>)
    requires Sorted([job] + q)
    ensures Best(job, q)
  {
    var all := [job] + q;
    forall k | 0 <= k < |q| ensures !Outranks(q[k], job) {
      assert all[k + 1] == q[k] && all[0] == job;
    }
  }

  // A job that outranks nobody goes to the back.
  lemma InsertAtBack(q: seq<Job>, job: Job)
    requires forall k :: 0 <= k < |q| ==> !Outranks(job, q[k])
    ensures Insert(q, job) == q + [job]
  {
    SlotUnique(q, job, |q|);
  }

  function InsertAll(q: seq<Job>, jobs: seq<Job>): seq<Job>
    decreases |jobs|
  {
    if jobs == [] then q else InsertAll(Insert(q, jobs[0]), jobs[1..])
  }

  lemma {:induction false} InsertAllSnoc(q: seq<Job>, jobs: seq<Job>, job: Job)
    ensures InsertAll(q, jobs + [job]) == Insert(InsertAll(q, jobs), job)
    decreases |jobs|
  {
    if jobs == [] {
      assert [job][1..] == [];
      assert InsertAll(Insert(q, job), []) == Insert(q, job);
      assert jobs + [job] == [job];
    } else {
      assert (jobs + [job])[1..] == jobs[1..] + [job];
      InsertAllSnoc(Insert(q, jobs[0]), jobs[1..], job);
    }
  }

  lemma {:induction false} InsertAllSorted(q: seq<Job>, jobs: seq<Job>)
    requires Sorted(q)
    ensures Sorted(InsertAll(q, jobs))
    ensures multiset(InsertAll(q, jobs)) == multiset(q) + multiset(jobs)
    decreases |jobs|
  {
    if jobs != [] {
      InsertSorted(q, jobs[0]);
      InsertAllSorted(Insert(q, jobs[0]), jobs[1..]);
      assert jobs == [jobs[0]] + jobs[1..];
    }
  }

  // Re-inserting an already sorted listing one by one gives the listing back,
  // tie order included.
  lemma {:induction false} InsertAllOfSorted(q: seq<Job>, jobs: seq<Job>)
    requires Sorted(q + jobs)
    ensures InsertAll(q, jobs) == q + jobs
    decreases |jobs|
  {
    if jobs == [] {
      assert q + jobs == q;
    } else {
      var all := q + jobs;
      forall k | 0 <= k < |q| ensures !Outranks(jobs[0], q[k]) {
        assert all[|q|] == jobs[0] && all[k] == q[k];
      }
      InsertAtBack(q, jobs[0]);
      assert q + [jobs[0]] + jobs[1..] == all;
      InsertAllOfSorted(q + [jobs[0]], jobs[1..]);
    }
  }

  lemma InsertSortedAfresh(jobs: seq<Job>)
    requires Sorted(jobs)
    ensures InsertAll([], jobs) == jobs
  {
    assert [] + jobs == jobs;
    InsertAllOfSorted([], jobs);
  }

  // No two different jobs share priority and creation time.
  ghost predicate NoTies(q: seq<Job>) {
    forall x, y :: x in q && y in q && SameKey(x, y) ==> x == y
  }

  lemma TailsAgree<T>(a: seq<T>, b: seq<T>)
    requires a != [] && b != [] && a[0] == b[0] && multiset(a) == multiset(b)
    ensures multiset(a[1..]) == multiset(b[1..])
  {
    assert a == [a[0]] + a[1..] && b == [b[0]] + b[1..];
    assert multiset(a[1..]) == multiset(a) - multiset{a[0]};
    assert multiset(b[1..]) == multiset(b) - multiset{b[0]};
  }

  lemma SameMembers<T>(a: seq<T>, b: seq<T>)
    requires multiset(a) == multiset(b)
    ensures |a| == |b|
    ensures forall x :: x in a <==> x in b
  {
    assert |a| == |multiset(a)| == |multiset(b)| == |b|;
    assert forall x :: x in a <==> x in multiset(a);
    assert forall x :: x in b <==> x in multiset(b);
  }

  // Without ties there is only one sorted arrangement.
  lemma {:induction false} SortedUnique(a: seq<Job>, b: seq<Job>)
    requires Sorted(a) && Sorted(b) && NoTies(a)
    requires multiset(a) == multiset(b)
    ensures a == b
    decreases |a|
  {
    SameMembers(a, b);
    if a != [] {
      HeadsAgree(a, b);
      TailsAgree(a, b);
      SortedUnique(a[1..], b[1..]);
      assert a == [a[0]] + a[1..] && b == [b[0]] + b[1..];
    }
  }

  lemma HeadsAgree(a: seq<Job>, b: seq<Job>)
    requires Sorted(a) && Sorted(b) && NoTies(a)
    requires a != [] && b != [] && forall x :: x in a <==> x in b
    ensures a[0] == b[0]
  {
    assert a[0] in b && b[0] in a;
    var i :| 0 <= i < |b| && b[i] == a[0];
    var k :| 0 <= k < |a| && a[k] == b[0];
    assert i == 0 || !Outranks(b[i], b[0]);
    assert k == 0 || !Outranks(a[k], a[0]);
  }

  // The arrival order of jobs without ties leaves no trace in the slice.
  lemma ArrivalOrderIrrelevant(xs: seq<Job>, ys: seq<Job>)
    requires NoTies(xs) && multiset(xs) == multiset(ys)
    ensures InsertAll([], xs) == InsertAll([], ys)
  {
    InsertAllSorted([], xs);
    InsertAllSorted([], ys);
    SameMembers(xs, InsertAll([], xs));
    SortedUnique(InsertAll([], xs), InsertAll([], ys));
  }
}
