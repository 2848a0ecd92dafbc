// What start-up recovery and the sweepers achieve, stated on tables and listings.
module Recovery {
  import opened Models
  import opened Ordering
  import opened Tables
  import opened Counting
  import opened FifoQueue
  import opened PriorityQueue
  import Lifecycle

  function CopiesIn(q: seq<Job>, id: JobId): nat {
    Count(q, Lifecycle.JobIs(id))
  }

  // A duplicate-free list of rows whose ids satisfy what `p` and the table say.
  lemma {:induction false} SelectOnce(db: Table, list: seq<Row>, p: Row -> bool, id: JobId)
    requires forall i :: 0 <= i < |list| ==> list[i].job.id in db && db[list[i].job.id] == list[i]
    requires forall i, k :: 0 <= i < k < |list| ==> list[i].job.id != list[k].job.id
    ensures CopiesIn(JobsOf(Select(list, p)), id)
         == Bit(id in db && db[id] in list && p(db[id]) && db[id].job.id == id)
  {
    if list != [] {
      var rest, sel := list[1..], Select(list[1..], p);
      SelectOnce(db, rest, p, id);
      assert list == [list[0]] + rest;
      if p(list[0]) {
        assert JobsOf([list[0]] + sel) == [list[0].job] + JobsOf(sel);
        CountConcat([list[0].job], JobsOf(sel), Lifecycle.JobIs(id));
        assert CopiesIn([list[0].job], id) == Bit(list[0].job.id == id);
      } else {
        assert Select(list, p) == sel;
      }
    }
  }

  lemma ListedIff(db: Table, list: seq<Row>, id: JobId)
    requires IsListing(db, list) && id in db
    ensures db[id] in list && db[id].job.id == id <==> Live(db, id)
  {
    if Live(db, id) {
      var i :| 0 <= i < |list| && list[i].job.id == id;
      assert list[i] == db[id];
    }
  }

  // Out of a listing, p's jobs appear once each, and nothing else does.
  lemma ListingCopies(db: Table, list: seq<Row>, p: Row -> bool, id: JobId)
    requires IsListing(db, list)
    ensures CopiesIn(JobsOf(Select(list, p)), id) == Bit(Live(db, id) && p(db[id]))
  {
    SelectOnce(db, list, p, id);
    if id in db { ListedIff(db, list, id); }
  }

  lemma {:induction false} SelectAny(list: seq<Row>)
    ensures Select(list, AnyRow()) == list
  {
    if list != [] {
      SelectAny(list[1..]);
    }
  }

  // Index agrees with the query: recovering an empty priority queue yields the listing
  // restricted to priority jobs, in the database's own order, ties included.
  lemma IndexIsQuery(db: Table, list: seq<Row>, p: Row -> bool)
    requires IsListing(db, list)
    ensures After([], list, |list|, p) == JobsOf(Select(list, p))
  {
    AfterIsInsertAll([], list, p);
    SelectSorted(list, p);
    InsertSortedAfresh(JobsOf(Select(list, p)));
  }

  // What a successful Router.Recover has done: l1, l2, l3 are the three listings, f, p, q
  // the queues' contents before, f', p', q' after.
  ghost predicate Restored(db: Table, db': Table, now: Time, l1: seq<Row>, l2: seq<Row>, l3: seq<Row>,
                           f: seq<Job>, p: seq<Job>, q: seq<Job>, f': seq<Job>, p': seq<Job>, q': seq<Job>)
  {
    var db1 := ResetAll(db, now, AnyRow());
    var db2 := ResetAll(db1, now, PriorityRow());
    && IsListing(db, l1) && IsListing(db1, l2) && IsListing(db2, l3)
    && db' == ResetAll(db2, now, AnyRow())
    && f' == f + JobsOf(l1) && p' == After(p, l2, |l2|, PriorityRow()) && q' == q + JobsOf(l3)
  }

  // Recovery that reports success leaves every live job pending; and over empty queues
  // it queues every live job twice (the two channel queues do not look at the queue
  // type), a priority job three times, and nothing else at all.
  lemma RestoredMeans(db: Table, db': Table, now: Time, l1: seq<Row>, l2: seq<Row>, l3: seq<Row>,
                      f: seq<Job>, p: seq<Job>, q: seq<Job>, f': seq<Job>, p': seq<Job>, q': seq<Job>, id: JobId)
    requires Restored(db, db', now, l1, l2, l3, f, p, q, f', p', q')
    ensures Live(db', id) <==> Live(db, id)
    ensures Live(db, id) ==> db'[id].status == Pending && CopiesIn(f', id) >= 1
    ensures f == p == q == [] ==>
      CopiesIn(f', id) + CopiesIn(p', id) + CopiesIn(q', id)
        == if !Live(db, id) then 0 else if db[id].job.queue.Priority? then 3 else 2
  {
    ThriceReset(db, now, id);
    AllOnFifo(db, l1, f, id);
    if f == p == q == [] {
      assert f' == JobsOf(l1) && q' == JobsOf(l3);
      RecoveredCopies(db, l1, l2, l3, now, id);
    }
  }

  lemma ThriceReset(db: Table, now: Time, id: JobId)
    ensures var db' := ResetAll(ResetAll(ResetAll(db, now, AnyRow()), now, PriorityRow()), now, AnyRow());
            (Live(db', id) <==> Live(db, id)) && (Live(db, id) ==> db'[id].status == Pending)
  {
  }

  lemma AllOnFifo(db: Table, list: seq<Row>, f: seq<Job>, id: JobId)
    requires IsListing(db, list)
    ensures CopiesIn(JobsOf(list), id) == Bit(Live(db, id))
    ensures CopiesIn(f + JobsOf(list), id) == CopiesIn(f, id) + Bit(Live(db, id))
  {
    SelectAny(list);
    ListingCopies(db, list, AnyRow(), id);
    CountConcat(f, JobsOf(list), Lifecycle.JobIs(id));
  }

  lemma RecoveredCopies(db: Table, l1: seq<Row>, l2: seq<Row>, l3: seq<Row>, now: Time, id: JobId)
    requires IsListing(db, l1)
    requires IsListing(ResetAll(db, now, AnyRow()), l2)
    requires IsListing(ResetAll(ResetAll(db, now, AnyRow()), now, PriorityRow()), l3)
    ensures CopiesIn(JobsOf(l1), id) + CopiesIn(After([], l2, |l2|, PriorityRow()), id) + CopiesIn(JobsOf(l3), id)
         == if !Live(db, id) then 0 else if db[id].job.queue.Priority? then 3 else 2
  {
    var db1 := ResetAll(db, now, AnyRow());
    AllOnFifo(db, l1, [], id);
    AllOnFifo(ResetAll(db1, now, PriorityRow()), l3, [], id);
    PriorityCopies(db1, l2, id);
  }

  lemma PriorityCopies(db: Table, list: seq<Row>, id: JobId)
    requires IsListing(db, list)
    ensures CopiesIn(After([], list, |list|, PriorityRow()), id) == Bit(Live(db, id) && db[id].job.queue.Priority?)
  {
    IndexIsQuery(db, list, PriorityRow());
    ListingCopies(db, list, PriorityRow(), id);
  }

  // A clean sweep heals: every pending job and every stale processing job ends up
  // pending with at least one copy in the swept channel; other rows stand untouched.
  lemma SweepHeals(db: Table, list: seq<Row>, q: seq<Job>, now: Time, id: JobId)
    requires IsListing(db, list) && Live(db, id)
    ensures var after, swept := ResetAll(db, now, StaleRow(now)), Appended(q, list, |list|, SweptRow(now));
            && (SweptRow(now)(db[id]) ==> after[id].status == Pending && CopiesIn(swept, id) == CopiesIn(q, id) + 1)
            && (!SweptRow(now)(db[id]) ==> after[id] == db[id] && CopiesIn(swept, id) == CopiesIn(q, id))
  {
    AppendedIsSelect(q, list, |list|, SweptRow(now));
    assert list[..|list|] == list;
    CountConcat(q, JobsOf(Select(list, SweptRow(now))), Lifecycle.JobIs(id));
    ListingCopies(db, list, SweptRow(now), id);
  }

  // The same for the sorted queue, which sweeps priority jobs only and stays sorted.
  lemma PrioritySweepHeals(db: Table, list: seq<Row>, q: seq<Job>, now: Time, id: JobId)
    requires IsListing(db, list) && Live(db, id) && Sorted(q)
    ensures var after := ResetAll(db, now, StalePriorityRow(now));
            var swept := PriorityQueue.After(q, list, |list|, SweptPriorityRow(now));
            && Sorted(swept)
            && (SweptPriorityRow(now)(db[id]) ==> after[id].status == Pending && CopiesIn(swept, id) == CopiesIn(q, id) + 1)
            && (!SweptPriorityRow(now)(db[id]) ==> after[id] == db[id] && CopiesIn(swept, id) == CopiesIn(q, id))
  {
    AfterIsInsertAll(q, list, SweptPriorityRow(now));
    var jobs := JobsOf(Select(list, SweptPriorityRow(now)));
    InsertAllSorted(q, jobs);
    InsertAllCopies(q, jobs, id);
    ListingCopies(db, list, SweptPriorityRow(now), id);
  }

  lemma {:induction false} InsertAllCopies(q: seq<Job>, jobs: seq<Job>, id: JobId)
    ensures CopiesIn(InsertAll(q, jobs), id) == CopiesIn(q, id) + CopiesIn(jobs, id)
    decreases |jobs|
  {
    if jobs != [] {
      CountInsert(q, Slot(q, jobs[0]), jobs[0], Lifecycle.JobIs(id));
      InsertAllCopies(Insert(q, jobs[0]), jobs[1..], id);
    }
  }
}
