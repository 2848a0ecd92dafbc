// Runs in which a second copy, made by a sweeper or by recovery, does damage: what the
// conditions of Theorems, Ledger and Startup exclude does happen.
module Duplicates {
  import opened Models
  import opened Tables
  import opened Counting
  import JobStore
  import opened Lifecycle
  import opened Theorems
  import opened Ledger
  import opened Runs

  // ---- segments of runs --------------------------------------------------------------

  function Fresh(): Worker { Worker(Top, None, Alive, None) }
  function Busy(job: Job): Worker { Worker(Running(job), Some(job), Alive, None) }

  // Worker i takes the head of the FIFO channel ...
  lemma Receive(c: Config, r: Trace, i: nat) returns (n: Trace)
    requires r.Of(c) && i < |r.Last().ws| && r.Last().ws[i] == Fresh() && !r.Last().crew.stopped
    requires r.Last().q.prio == [] && r.Last().tokens <= 0 && r.Last().q.fifo != []
    ensures Continues(r, n)
    ensures var s := r.Last();
            n.At(c, s.(ws := s.ws[i := Fresh().(pc := Got(s.q.fifo[0]))], q := s.q.(fifo := s.q.fifo[1..])))
  {
    var a := LookIn(c, r, i);
    var b := Then(c, a, Work(i, CheckToken));
    n := Then(c, b, Work(i, ReceiveFifo(true)));
    assert n.Last().ws == r.Last().ws[i := Fresh().(pc := Got(r.Last().q.fifo[0]))];
  }

  lemma Begin(c: Config, r: Trace, i: nat, job: Job) returns (n: Trace)
    requires r.Of(c) && i < |r.Last().ws| && r.Last().ws[i] == Fresh().(pc := Got(job)) && Known(r.Last().db, job)
    ensures Continues(r, n)
    ensures var s := r.Last();
            n.At(c, s.(ws := s.ws[i := Busy(job)], db := SetStatus(s.db, job.id, Processing, s.now)))
  {
    var a := Then(c, r, Work(i, SetProcessing(true)));
    n := Then(c, a, Work(i, Register));
    assert n.Last().ws == r.Last().ws[i := Busy(job)];
  }

  // ... and starts on it.
  lemma Take(c: Config, r: Trace, i: nat) returns (n: Trace)
    requires r.Of(c) && i < |r.Last().ws| && r.Last().ws[i] == Fresh() && !r.Last().crew.stopped
    requires r.Last().q.prio == [] && r.Last().tokens <= 0
    requires r.Last().q.fifo != [] && Known(r.Last().db, r.Last().q.fifo[0])
    ensures Continues(r, n)
    ensures var s := r.Last(); var job := s.q.fifo[0];
            n.At(c, s.(ws := s.ws[i := Busy(job)], q := s.q.(fifo := s.q.fifo[1..]),
                       db := SetStatus(s.db, job.id, Processing, s.now)))
  {
    var a := Receive(c, r, i);
    n := Begin(c, a, i, r.Last().q.fifo[0]);
    assert n.Last().ws == r.Last().ws[i := Busy(r.Last().q.fifo[0])];
  }

  lemma Complete(c: Config, r: Trace, i: nat, job: Job) returns (n: Trace)
    requires r.Of(c) && i < |r.Last().ws| && r.Last().ws[i] == Busy(job) && Known(r.Last().db, job)
    ensures Continues(r, n)
    ensures var s := r.Last(); var q := s.db[job.id].job.queue;
            n.At(c, s.(ws := s.ws[i := Fresh()], db := SetStatus(s.db, job.id, Completed, s.now),
                       met := s.met.(completed := Add(s.met.completed, q, 1))))
  {
    var a := Then(c, r, Work(i, Process(Success)));
    var b := Then(c, a, Work(i, Ack(true)));
    n := Then(c, b, Work(i, Cleanup));
    assert n.Last().ws == r.Last().ws[i := Fresh()];
  }

  // The processor fails and Nack reads the row.
  lemma FailAndRead(c: Config, r: Trace, i: nat, job: Job) returns (n: Trace)
    requires r.Of(c) && i < |r.Last().ws| && r.Last().ws[i] == Busy(job) && Known(r.Last().db, job)
    ensures Continues(r, n)
    ensures var s := r.Last(); var row := s.db[job.id];
            n.At(c, s.(ws := s.ws[i := Busy(job).(pc := NackWriting(job, row.retries, row.maxRetries))]))
  {
    var a := Then(c, r, Work(i, Process(Error)));
    var b := Then(c, a, Work(i, Judge));
    n := Then(c, b, Work(i, NackRead(true)));
    var row := r.Last().db[job.id];
    assert n.Last().ws == r.Last().ws[i := Busy(job).(pc := NackWriting(job, row.retries, row.maxRetries))];
  }

  function Nacked(s: State, i: nat, job: Job, retries: int, maxRetries: int): State
    requires i < |s.ws| && job.id in s.db
  {
    var row := NackedRow(s.db[job.id], retries, maxRetries, s.now);
    s.(ws := s.ws[i := Busy(job).(pc := if row.status.Failed? then Finished else NackEnqueuing(job))],
       db := s.db[job.id := row],
       met := Bump(s.met, if row.status.Failed? then CountFailed else CountRetried, row.job.queue),
       hist := s.hist.(nacks := Add(s.hist.nacks, job.id, 1)))
  }

  lemma WriteNack(c: Config, r: Trace, i: nat, job: Job, retries: int, maxRetries: int) returns (n: Trace)
    requires r.Of(c) && i < |r.Last().ws| && r.Last().ws[i] == Busy(job).(pc := NackWriting(job, retries, maxRetries))
    requires Known(r.Last().db, job)
    ensures Continues(r, n)
    ensures n.At(c, Nacked(r.Last(), i, job, retries, maxRetries))
  {
    n := Then(c, r, Work(i, NackWrite(true)));
  }

  // ... and after the re-enqueue, if there is one, the worker is free again.
  lemma Wrap(c: Config, r: Trace, i: nat, job: Job) returns (n: Trace)
    requires r.Of(c) && i < |r.Last().ws| && |r.Last().q.fifo| < c.fifoCap
    requires r.Last().ws[i] == Busy(job).(pc := Finished) || r.Last().ws[i] == Busy(job).(pc := NackEnqueuing(job))
    ensures Continues(r, n)
    ensures var s := r.Last();
            n.At(c, s.(ws := s.ws[i := Fresh()], q := if s.ws[i].pc.Finished? then s.q else PushFifo(s.q, job)))
  {
    var d := r;
    if !r.Last().ws[i].pc.Finished? {
      d := Then(c, r, Work(i, NackEnqueue(true)));
    }
    n := Then(c, d, Work(i, Cleanup));
    assert n.Last().ws == r.Last().ws[i := Fresh()];
  }

  function AfterFailure(s: State, i: nat, job: Job): State
    requires i < |s.ws| && job.id in s.db
  {
    var t := Nacked(s, i, job, s.db[job.id].retries, s.db[job.id].maxRetries);
    t.(ws := s.ws[i := Fresh()], q := if t.ws[i].pc.Finished? then s.q else PushFifo(s.q, job))
  }

  // One whole failed attempt, from the start of the processor to the top of the loop.
  lemma FailOnce(c: Config, r: Trace, i: nat, job: Job) returns (n: Trace)
    requires r.Of(c) && i < |r.Last().ws| && r.Last().ws[i] == Busy(job) && Known(r.Last().db, job)
    requires |r.Last().q.fifo| < c.fifoCap
    ensures Continues(r, n)
    ensures n.At(c, AfterFailure(r.Last(), i, job))
  {
    var row := r.Last().db[job.id];
    var a := FailAndRead(c, r, i, job);
    var b := WriteNack(c, a, i, job, row.retries, row.maxRetries);
    var t := Nacked(r.Last(), i, job, row.retries, row.maxRetries);
    assert b.Last().ws == t.ws && b.Last() == t;
    n := Wrap(c, b, i, job);
    assert n.Last().ws == r.Last().ws[i := Fresh()];
    ContinuesOn(r, a, b);
    ContinuesOn(r, b, n);
  }

  lemma OneRow(row: Row)
    requires !row.status.Terminal()
    ensures IsListing(map[row.job.id := row], [row])
  {
    var db, list := map[row.job.id := row], [row];
    forall id | Live(db, id) ensures exists i :: 0 <= i < |list| && list[i].job.id == id {
      assert list[0].job.id == id;
    }
  }

  // Scanner k lists the only row of the table.
  lemma ListOne(c: Config, r: Trace, k: nat, row: Row) returns (n: Trace)
    requires r.Of(c) && k < |r.Last().scans| && r.Last().scans[k] == AtRest(r.Last().scans[k].lane)
    requires r.Last().db == map[row.job.id := row] && !row.status.Terminal()
    ensures Continues(r, n)
    ensures n.At(c, r.Last().(scans := r.Last().scans[k := Scanner(r.Last().scans[k].lane, Active, [row], None)]))
  {
    OneRow(row);
    n := Then(c, r, Scan(k, List(true, [row])));
  }

  // ... and puts it on the FIFO channel.
  lemma PutOne(c: Config, r: Trace, k: nat, row: Row) returns (n: Trace)
    requires r.Of(c) && k < |r.Last().scans| && r.Last().scans[k] == Scanner(ToFifo, Active, [row], None)
    requires row.status.Pending? && |r.Last().q.fifo| < c.fifoCap
    ensures Continues(r, n)
    ensures var s := r.Last();
            n.At(c, s.(q := PushFifo(s.q, row.job), hist := s.hist.(lost := s.hist.lost - {row.job.id}),
                       scans := s.scans[k := if k == STARTUP then AtRest(ToPriority) else AtRest(ToFifo)]))
  {
    var a := Then(c, r, Scan(k, Pick(true)));
    assert a.Last().scans[k] == Scanner(ToFifo, Active, [], Some(row.job));
    var b := Then(c, a, Scan(k, Put(true)));
    n := Then(c, b, Scan(k, Finish));
    assert n.Last().scans == r.Last().scans[k := n.Last().scans[k]];
  }

  // ---- a sweeper beside a healthy server ----------------------------------------------

  function TheJob(): Job { Job(0, Fifo, PRIORITY_NORMAL, 0) }

  function Crewed(c: Config, row: Row, fifo: seq<Job>): State {
    var s := Boot(c, map[0 := row], 0, NO_HISTORY);
    s.(q := s.q.(fifo := fifo), scans := SERVING, hs := [Replied],
       met := s.met.(submitted := Add(map[], Fifo, 1)))
  }

  // A job waits in the FIFO channel; a sweeper finds its row pending and queues it again.
  lemma SweptTwice(c: Config) returns (r: Trace)
    requires c.fifoCap >= 2
    ensures r.At(c, Crewed(c, NewRow(TheJob()), [TheJob(), TheJob()]))
    ensures OneLife(r)
  {
    var open := Open(c);
    var one := Submit(c, open, 0, Fifo);
    assert one.Last() == Crewed(c, NewRow(TheJob()), [TheJob()]);
    var listed := ListOne(c, one, 1, NewRow(TheJob()));
    r := PutOne(c, listed, 1, NewRow(TheJob()));
    StillOneLife(open, one);
    StillOneLife(one, listed);
    StillOneLife(listed, r);
    assert r.Last().scans == SERVING;
    assert r.Last().hist.lost == {};
  }

  // So even without a crash the job has two copies.
  lemma SweepDuplicates(backend: Backend) returns (c: Config, r: Trace)
    ensures c.backend == backend && r.Of(c) && OneLife(r)
    ensures Live(r.Last().db, 0) && Copies(r.Last(), 0) >= 2
  {
    c := Config(1, 2, 1, 0, backend);
    r := SweptTwice(c);
    CountTwo(r.Last().q.fifo, 0, 1, JobIs(0));
  }

  lemma TakeAndComplete(c: Config, r: Trace) returns (n: Trace)
    requires r.At(c, Crewed(c, NewRow(TheJob()), [TheJob(), TheJob()])) && c.workers == 1 && c.burst == 0
    requires OneLife(r)
    ensures OneLife(n) && n.Of(c) && n.Last().ws == [Fresh()] && !n.Last().crew.stopped
    ensures n.Last().q == Queues([TheJob()], [], []) && n.Last().tokens <= 0 && Known(n.Last().db, TheJob())
    ensures n.Last().db.Keys == {0} && n.Last().db[0].status.Completed?
    ensures n.Last().met.completed == Add(map[], Fifo, 1)
  {
    assert r.Last().ws == [Fresh()];
    var a := Take(c, r, 0);
    assert a.Last().ws == [Busy(TheJob())];
    n := Complete(c, a, 0, TheJob());
    StillOneLife(r, a);
    StillOneLife(a, n);
  }

  lemma TakeAgain(c: Config, r: Trace) returns (n: Trace)
    requires r.Of(c) && r.Last().ws == [Fresh()] && !r.Last().crew.stopped
    requires r.Last().q == Queues([TheJob()], [], []) && r.Last().tokens <= 0 && Known(r.Last().db, TheJob())
    requires r.Last().db.Keys == {0} && r.Last().met.completed == Add(map[], Fifo, 1) && OneLife(r)
    ensures n.Of(c) && OneLife(n) && |r.ss| <= |n.ss| && n.ss[|r.ss| - 1] == r.Last()
    ensures n.Last().db.Keys == {0} && n.Last().db[0].status.Processing? && !StatusBalance(n.Last())
  {
    n := Take(c, r, 0);
    StillOneLife(r, n);
    StillThere(r, n);
    NobodyCompleted(n.Last(), Fifo);
  }

  // The first copy completes the job; the second turns the completed row back to
  // processing, and the counters no longer match the table.
  lemma SweepRevivesCompleted(backend: Backend) returns (c: Config, r: Trace, k: nat)
    ensures c.backend == backend && r.Of(c) && OneLife(r)
    ensures k < |r.ss| && 0 in r.ss[k].db && r.ss[k].db[0].status.Completed?
    ensures 0 in r.Last().db && r.Last().db[0].status.Processing?
    ensures !StatusBalance(r.Last())
  {
    c := Config(1, 2, 1, 0, backend);
    var two := SweptTwice(c);
    var b := TakeAndComplete(c, two);
    r := TakeAgain(c, b);
    k := |b.ss| - 1;
  }

  lemma NobodyCompleted(s: State, q: QueueType)
    requires (forall id :: id in s.db ==> !s.db[id].status.Completed?) && Read(s.met.completed, q) > 0
    ensures !StatusBalance(s)
  {
    assert JobStore.Cohort(s.db, s.db.Keys, q, Completed) == {};
    assert !QueueBalance(s, q);
  }

  // Each attempt of either copy fails: the third nack fails the job, the left-over copy
  // makes it run again, and a fourth nack drives the count past the limit.
  lemma SweepOverspends(backend: Backend) returns (c: Config, r: Trace)
    ensures c.backend == backend && r.Of(c) && OneLife(r)
    ensures Read(r.Last().hist.nacks, 0) == 4 && Read(r.Last().hist.revivals, 0) == 0
    ensures 0 in r.Last().db && r.Last().db[0].retries == 4 && r.Last().db[0].maxRetries == 3
    ensures !NackExact(c, r.Last(), 0)
  {
    c := Config(1, 2, 1, 0, backend);
    var two := SweptTwice(c);
    assert two.Last().ws == [Fresh()];
    var a := TakeAndFail(c, two);
    var b := TakeAndFail(c, a);
    var d := TakeAndFail(c, b);
    r := TakeAndFail(c, d);
    StillOneLife(two, a);
    StillOneLife(a, b);
    StillOneLife(b, d);
    StillOneLife(d, r);
  }

  lemma TakeAndFail(c: Config, r: Trace) returns (n: Trace)
    requires c.fifoCap == 2 && r.Of(c) && r.Last().ws == [Fresh()] && !r.Last().crew.stopped
    requires r.Last().q.prio == [] && r.Last().tokens <= 0
    requires r.Last().q.fifo == [TheJob(), TheJob()] || r.Last().q.fifo == [TheJob()]
    requires Known(r.Last().db, TheJob())
    ensures Continues(r, n) && n.Of(c) && n.Last().ws == [Fresh()] && !n.Last().crew.stopped
    ensures n.Last().q.prio == [] && n.Last().tokens <= 0 && Known(n.Last().db, TheJob())
    ensures var s, t := r.Last(), n.Last(); var failed := s.db[0].retries + 1 >= s.db[0].maxRetries;
            && t.q.fifo == (if failed then s.q.fifo[1..] else s.q.fifo[1..] + [TheJob()])
            && t.db[0].retries == s.db[0].retries + 1 && t.db[0].maxRetries == s.db[0].maxRetries
            && Read(t.hist.nacks, 0) == Read(s.hist.nacks, 0) + 1 && t.hist.revivals == s.hist.revivals
  {
    var a := Take(c, r, 0);
    assert a.Last().ws == [Busy(TheJob())];
    n := FailOnce(c, a, 0, TheJob());
  }

  lemma BothTake(c: Config, r: Trace) returns (n: Trace)
    requires r.At(c, Crewed(c, NewRow(TheJob()), [TheJob(), TheJob()])) && c.workers == 2 && c.burst == 0
    ensures Continues(r, n) && n.Of(c) && n.Last().ws == [Busy(TheJob()), Busy(TheJob())]
    ensures n.Last().db.Keys == {0} && n.Last().db[0] == NewRow(TheJob()).(status := Processing)
    ensures n.Last().met == r.Last().met
  {
    assert r.Last().ws == [Fresh(), Fresh()];
    var a := Take(c, r, 0);
    assert a.Last().ws == [Busy(TheJob()), Fresh()];
    n := Take(c, a, 1);
    assert n.Last().ws == [Busy(TheJob()), Busy(TheJob())];
    ContinuesOn(r, a, n);
  }

  lemma BothRead(c: Config, r: Trace) returns (n: Trace)
    requires r.Of(c) && r.Last().ws == [Busy(TheJob()), Busy(TheJob())] && r.Last().db.Keys == {0}
    requires r.Last().db[0] == NewRow(TheJob()).(status := Processing)
    ensures Continues(r, n) && n.Of(c) && n.Last().db == r.Last().db && n.Last().met == r.Last().met
    ensures var w := Busy(TheJob()).(pc := NackWriting(TheJob(), 0, 3)); n.Last().ws == [w, w]
  {
    var a := FailAndRead(c, r, 0, TheJob());
    n := FailAndRead(c, a, 1, TheJob());
    ContinuesOn(r, a, n);
  }

  // Two workers run the two copies, both nacks read the same count, and an increment is
  // lost.
  lemma SweepLosesIncrement(backend: Backend) returns (c: Config, r: Trace)
    ensures c.backend == backend && r.Of(c) && OneLife(r)
    ensures !RetryBalance(r.Last())
  {
    c := Config(2, 2, 1, 0, backend);
    var two := SweptTwice(c);
    var b := BothTake(c, two);
    var e := BothRead(c, b);
    StillOneLife(two, b);
    StillOneLife(b, e);
    r := BothWrite(c, e);
  }

  lemma BothWrite(c: Config, e: Trace) returns (r: Trace)
    requires e.Of(c) && OneLife(e) && e.Last().db.Keys == {0}
    requires e.Last().db[0] == NewRow(TheJob()).(status := Processing)
    requires var w := Busy(TheJob()).(pc := NackWriting(TheJob(), 0, 3)); e.Last().ws == [w, w]
    requires e.Last().met.retried == e.Last().met.failed == e.Last().met.erased == map[]
    ensures r.Of(c) && OneLife(r) && !RetryBalance(r.Last())
  {
    var f := WriteNack(c, e, 0, TheJob(), 0, 3);
    r := WriteNack(c, f, 1, TheJob(), 0, 3);
    StillOneLife(e, f);
    StillOneLife(f, r);
    OneRetryCounted(r.Last());
  }

  lemma OneRetryCounted(s: State)
    requires s.db.Keys == {0} && s.db[0].retries == 1 && s.db[0].job.queue == Fifo
    requires Read(s.met.retried, Fifo) == 2 && s.met.erased == map[]
    ensures !RetryBalance(s)
  {
    var w := RetryWeight(Fifo);
    SumKeysRemove(s.db, s.db.Keys, 0, w);
    assert s.db.Keys - {0} == {};
    assert !RetryBooks(s, Fifo);
  }

  // ---- recovery beside the running pool -----------------------------------------------

  // The process dies with a job waiting; recovery puts it on the FIFO channel, a worker
  // takes it, recovery lists it as processing for the rate-limited lane, the worker
  // completes it, and recovery's reset writes pending over the completed row.
  lemma RecoveryOverwrites(backend: Backend) returns (c: Config, before: Trace, r: Trace)
    ensures c.backend == backend && before.Of(c) && r.Of(c) && Continues(before, r)
    ensures r.evs == before.evs + [Scan(STARTUP, Pick(true))]
    ensures 0 in before.Last().db && before.Last().db[0].status.Completed?
    ensures 0 in r.Last().db && r.Last().db[0].status.Pending?
    ensures !KeepsFinished(before.Last(), r.Last(), Scan(STARTUP, Pick(true)))
  {
    c := Config(1, 2, 1, 0, backend);
    var fifo := Requeued(c);
    var rate := SkipPriority(c, fifo);
    var row;
    row, before := ListedThenCompleted(c, rate);
    r := Then(c, before, Scan(STARTUP, Pick(true)));
  }

  lemma ListedThenCompleted(c: Config, r: Trace) returns (row: Row, n: Trace)
    requires c.workers == 1 && c.burst == 0 && r.At(c, Recovering(c, [TheJob()], ToRate))
    ensures n.Of(c) && row.status.Processing? && row.job == TheJob()
    ensures n.Last().db.Keys == {0} && n.Last().db[0].job == TheJob() && n.Last().db[0].status.Completed?
    ensures n.Last().scans == SCANNERS[STARTUP := Scanner(ToRate, Active, [row], None)]
  {
    assert r.Last().ws == [Fresh()];
    var a := Take(c, r, 0);
    assert a.Last().ws == [Busy(TheJob())];
    row := a.Last().db[0];
    var b := ListOne(c, a, STARTUP, row);
    n := Complete(c, b, 0, TheJob());
  }

  function Recovering(c: Config, fifo: seq<Job>, lane: Lane): State {
    var s := Boot(c, map[0 := NewRow(TheJob())], 0, NO_HISTORY);
    s.(q := s.q.(fifo := fifo), scans := SCANNERS[STARTUP := AtRest(lane)])
  }

  lemma OneWaits(c: Config) returns (n: Trace)
    requires c.fifoCap >= 1
    ensures n.Of(c) && n.Last().db == map[0 := NewRow(TheJob())] && n.Last().now == 0 && n.Last().hist == NO_HISTORY
  {
    var open := Open(c);
    n := Submit(c, open, 0, Fifo);
  }

  lemma DiesWaiting(c: Config) returns (n: Trace)
    requires c.fifoCap >= 1
    ensures n.At(c, Boot(c, map[0 := NewRow(TheJob())], 0, NO_HISTORY.(lost := {0})))
  {
    var one := OneWaits(c);
    assert LiveIds(one.Last().db) == {0};
    n := Trace(one.ss + [Fire(c, one.Last(), Crash)], one.evs + [Crash]);
  }

  lemma Requeued(c: Config) returns (n: Trace)
    requires c.fifoCap >= 1
    ensures n.At(c, Recovering(c, [TheJob()], ToPriority))
  {
    var row := NewRow(TheJob());
    var dead := DiesWaiting(c);
    var listed := ListOne(c, dead, STARTUP, row);
    n := PutOne(c, listed, STARTUP, row);
    assert n.Last().scans == SCANNERS[STARTUP := AtRest(ToPriority)];
    assert n.Last().hist.lost == {};
  }

  // The priority lane has no use for a FIFO job.
  lemma SkipPriority(c: Config, r: Trace) returns (n: Trace)
    requires r.At(c, Recovering(c, [TheJob()], ToPriority))
    ensures n.At(c, Recovering(c, [TheJob()], ToRate))
  {
    var row := NewRow(TheJob());
    var a := ListOne(c, r, STARTUP, row);
    var b := Then(c, a, Scan(STARTUP, Pick(true)));
    assert b.Last().scans[STARTUP] == Scanner(ToPriority, Active, [], None);
    n := Then(c, b, Scan(STARTUP, Finish));
    assert n.Last().scans == SCANNERS[STARTUP := AtRest(ToRate)];
  }
}
