// The counters against the table, and the retry budget of a job: each kept over a whole
// run exactly as long as a condition on single writes is met.
module Ledger {
  import opened Models
  import opened Tables
  import opened Counting
  import opened JobStore
  import opened Lifecycle
  import opened Ownership
  import opened Theorems
  import RetryBudget

  // ---- weights ---------------------------------------------------------------------

  function RetryWeight(q: QueueType): Row -> int { (r: Row) => if r.job.queue == q then r.retries else 0 }
  function QueueWeight(q: QueueType): Row -> int { (r: Row) => Bit(r.job.queue == q) }
  function StatusWeight(q: QueueType, s: Status): Row -> int { (r: Row) => Bit(r.job.queue == q && r.status == s) }

  // Summing the indicator of a group counts the group.
  lemma {:induction false} SumKeysIsCohort(db: Table, ks: set<JobId>, q: QueueType, s: Status)
    requires ks <= db.Keys
    ensures SumKeys(db, ks, StatusWeight(q, s)) == |Cohort(db, ks, q, s)|
    decreases |ks|
  {
    if ks == {} {
      assert Cohort(db, ks, q, s) == {};
    } else {
      var k :| k in ks;
      var rest := ks - {k};
      SumKeysIsCohort(db, rest, q, s);
      SumKeysRemove(db, ks, k, StatusWeight(q, s));
      assert |Cohort(db, ks, q, s)| == |Cohort(db, rest, q, s)| + StatusWeight(q, s)(db[k]) by {
        CohortGrows(db, rest, k, q, s);
        assert rest + {k} == ks;
      }
    }
  }

  ghost function Rows(db: Table, q: QueueType, s: Status): nat {
    |Cohort(db, db.Keys, q, s)|
  }

  function AmongWeight(q: QueueType, among: set<Status>): Row -> int {
    (r: Row) => Bit(r.job.queue == q && r.status in among)
  }

  // Every row of a queue has exactly one of the four statuses.
  lemma RowsPartition(db: Table, q: QueueType)
    ensures Sum(db, QueueWeight(q))
         == Rows(db, q, Pending) + Rows(db, q, Processing) + Rows(db, q, Completed) + Rows(db, q, Failed)
  {
    SumKeysIsCohort(db, db.Keys, q, Pending);
    SumKeysIsCohort(db, db.Keys, q, Processing);
    SumKeysIsCohort(db, db.Keys, q, Completed);
    SumKeysIsCohort(db, db.Keys, q, Failed);
    SumsPartition(db, q);
  }

  lemma SumsPartition(db: Table, q: QueueType)
    ensures Sum(db, QueueWeight(q))
         == Sum(db, StatusWeight(q, Pending)) + Sum(db, StatusWeight(q, Processing))
          + Sum(db, StatusWeight(q, Completed)) + Sum(db, StatusWeight(q, Failed))
  {
    PairSum(db, q, Pending, Processing);
    PairSum(db, q, Completed, Failed);
    var live, over := AmongWeight(q, {Pending, Processing}), AmongWeight(q, {Completed, Failed});
    forall id | id in db ensures QueueWeight(q)(db[id]) == live(db[id]) + over(db[id]) {
      EveryStatus(db[id].status);
    }
    SumKeysAdd(db, db.Keys, live, over, QueueWeight(q));
  }

  lemma EveryStatus(s: Status)
    ensures s in {Pending, Processing} <==> s !in {Completed, Failed}
  {
    match s {
      case Pending =>
      case Processing =>
      case Completed =>
      case Failed =>
    }
  }

  lemma PairSum(db: Table, q: QueueType, a: Status, b: Status)
    requires a != b
    ensures Sum(db, AmongWeight(q, {a, b})) == Sum(db, StatusWeight(q, a)) + Sum(db, StatusWeight(q, b))
  {
    SumKeysAdd(db, db.Keys, StatusWeight(q, a), StatusWeight(q, b), AmongWeight(q, {a, b}));
  }

  // ---- exactness over a run ----------------------------------------------------------

  // If a good state stays good exactly when the step out of it is clean, then all states
  // are good exactly when all steps are clean.
  lemma {:induction false} ExactlyWhile(good: nat -> bool, clean: nat -> bool, m: nat)
    requires good(0) && forall k: nat :: k < m && good(k) ==> (good(k + 1) <==> clean(k))
    ensures (forall k: nat :: k <= m ==> good(k)) <==> (forall k: nat :: k < m ==> clean(k))
  {
    if m > 0 {
      ExactlyWhile(good, clean, m - 1);
      if forall k: nat :: k < m ==> clean(k) {
        assert good(m - 1) && clean(m - 1);
      }
      if forall k: nat :: k <= m ==> good(k) {
        assert good(m - 1) && good(m - 1 + 1);
      }
    }
  }

  // ---- row writes ---------------------------------------------------------------------

  // The row a worker or a scanner writes in this step.
  function Write(c: Config, s: State, ev: Event): Option<Row>
    requires Enabled(c, s, ev)
  {
    match ev
    case Work(i, act) => Perform(c, s, i, act).row
    case Scan(_, _) =>
      var p := PickedBy(s, ev);
      if p.Some? && p.value.status.Processing? && p.value.job.id in s.db
      then Some(Stamp(s.db[p.value.job.id], Pending, s.now)) else None
    case _ => None
  }

  // A worker or a scanner writes over a row that is already completed or failed.
  predicate Overwrites(c: Config, s: State, ev: Event)
    requires Enabled(c, s, ev)
  {
    var w := Write(c, s, ev);
    w.Some? && w.value.job.id in s.db && s.db[w.value.job.id].status.Terminal()
  }

  // A nack writes the successor of a count that is no longer the row's.
  predicate Stale(s: State, ev: Event)
  {
    && ev.Work? && ev.i < |s.ws| && ev.act == NackWrite(true) && s.ws[ev.i].pc.NackWriting?
    && var pc := s.ws[ev.i].pc; pc.job.id in s.db && pc.retries != s.db[pc.job.id].retries
  }

  // What a worker's row write does to status and count, and the counter that goes with it.
  ghost predicate InStep(s: State, i: nat, act: Act, e: Effect)
    requires i < |s.ws|
  {
    && (e.nacked <==> act == NackWrite(true) && e.row.Some?)
    && (e.row.Some? ==>
          Known(s.db, e.row.value.job) && var old', new' := s.db[e.row.value.job.id], e.row.value;
             && new'.retries == (if e.nacked && s.ws[i].pc.NackWriting? then s.ws[i].pc.retries + 1 else old'.retries)
             && new'.maxRetries == old'.maxRetries
             && (new'.status.Completed? <==> e.counter.CountCompleted?)
             && (new'.status.Failed? <==> e.counter.CountFailed?)
             && (e.nacked <==> e.counter.CountRetried? || e.counter.CountFailed?))
  }

  lemma FinalizeInStep(c: Config, s: State, i: nat, act: Act)
    requires i < |s.ws| && ActEnabled(c, s, i, act) && Finalizing(act) && WorkerOk(s.db, s.ws[i])
    ensures InStep(s, i, act, Finalize(s, s.ws[i], act))
  {
  }

  lemma ExecuteInStep(c: Config, s: State, i: nat, act: Act)
    requires i < |s.ws| && ActEnabled(c, s, i, act) && !Polling(act) && !Finalizing(act)
    requires WorkerOk(s.db, s.ws[i])
    ensures InStep(s, i, act, Execute(s, s.ws[i], act))
  {
  }

  lemma PerformInStep(c: Config, s: State, i: nat, act: Act)
    requires Base(c, s) && i < |s.ws| && ActEnabled(c, s, i, act)
    ensures InStep(s, i, act, Perform(c, s, i, act))
    ensures act == NackWrite(true) ==> s.ws[i].pc.NackWriting? && Perform(c, s, i, act).row.Some?
    ensures act == NackWrite(true) ==> Perform(c, s, i, act).row.value.job == s.ws[i].pc.job
  {
    assert WorkerOk(s.db, s.ws[i]);
    if Finalizing(act) {
      FinalizeInStep(c, s, i, act);
    } else if !Polling(act) {
      ExecuteInStep(c, s, i, act);
    }
  }

  lemma RowMoves(db: Table, row: Row, q: QueueType)
    ensures var db' := db[row.job.id := row]; var id := row.job.id;
            && Sum(db', RetryWeight(q)) == Sum(db, RetryWeight(q)) + RetryWeight(q)(row)
                 - (if id in db then RetryWeight(q)(db[id]) else 0)
            && Sum(db', QueueWeight(q)) == Sum(db, QueueWeight(q)) + QueueWeight(q)(row)
                 - (if id in db then QueueWeight(q)(db[id]) else 0)
            && (forall s :: Sum(db', StatusWeight(q, s)) == Sum(db, StatusWeight(q, s)) + StatusWeight(q, s)(row)
                 - (if id in db then StatusWeight(q, s)(db[id]) else 0))
  {
    SumUpdate(db, row.job.id, row, RetryWeight(q));
    SumUpdate(db, row.job.id, row, QueueWeight(q));
    forall s ensures Sum(db[row.job.id := row], StatusWeight(q, s)) == Sum(db, StatusWeight(q, s)) + StatusWeight(q, s)(row)
                 - (if row.job.id in db then StatusWeight(q, s)(db[row.job.id]) else 0)
    {
      SumUpdate(db, row.job.id, row, StatusWeight(q, s));
    }
  }

  // A table after a scanner's step differs by its one write.
  lemma ScanWrites(c: Config, s: State, ev: Event)
    requires Base(c, s) && Enabled(c, s, ev) && ev.Scan?
    ensures var w, t := Write(c, s, ev), Fire(c, s, ev);
            && t.met == s.met && t.hist.nacks == s.hist.nacks && t.hist.revivals == s.hist.revivals
            && (w.None? ==> t.db == s.db)
            && (w.Some? ==> Known(s.db, w.value.job) && t.db == s.db[w.value.job.id := w.value])
            && (w.Some? ==> w.value == Stamp(s.db[w.value.job.id], Pending, s.now))
  {
    if ev.step.Pick? { PickEffect(c, s, ev.k, ev.step.up); }
  }

  predicate Idle(ev: Event) {
    !ev.Work? && !ev.Scan? && !ev.Create? && !ev.ResetRetry? && !ev.Crash?
  }

  lemma IdleWrites(c: Config, s: State, ev: Event)
    requires Enabled(c, s, ev) && Idle(ev)
    ensures var t := Fire(c, s, ev);
            t.db == s.db && t.met == s.met && t.hist.nacks == s.hist.nacks && t.hist.revivals == s.hist.revivals
  {
  }

  // ---- status accounting ---------------------------------------------------------------

  ghost predicate StatusBooks(s: State, q: QueueType) {
    && Sum(s.db, QueueWeight(q)) == Read(s.met.submitted, q)
    && Sum(s.db, StatusWeight(q, Completed)) == Read(s.met.completed, q)
    && Sum(s.db, StatusWeight(q, Failed)) + Read(s.met.revived, q) == Read(s.met.failed, q)
  }

  lemma WorkStatus(c: Config, s: State, i: nat, act: Act, e: Effect, q: QueueType)
    requires i < |s.ws| && StatusBooks(s, q) && InStep(s, i, act, e)
    ensures StatusBooks(Apply(c, s, i, e), q) <==>
      !(e.row.Some? && e.row.value.job.queue == q && s.db[e.row.value.job.id].status.Terminal())
  {
    if e.row.Some? {
      RowMoves(s.db, e.row.value, q);
    }
  }

  // A row reset to pending, with no counter to go with it.
  lemma ResetBooks(s: State, t: State, row: Row, q: QueueType)
    requires Known(s.db, row.job) && row.status.Pending? && StatusBooks(s, q)
    requires t.db == s.db[row.job.id := row] && t.met == s.met
    ensures StatusBooks(t, q) <==> !(s.db[row.job.id].status.Terminal() && row.job.queue == q)
  {
    RowMoves(s.db, row, q);
  }

  lemma ScanStatus(c: Config, s: State, ev: Event, q: QueueType)
    requires Base(c, s) && Enabled(c, s, ev) && ev.Scan? && StatusBooks(s, q)
    ensures StatusBooks(Fire(c, s, ev), q) <==>
      !(Overwrites(c, s, ev) && Write(c, s, ev).value.job.queue == q)
  {
    var w := Write(c, s, ev);
    ScanWrites(c, s, ev);
    if w.Some? { ResetBooks(s, Fire(c, s, ev), w.value, q); }
  }

  lemma CreateStatus(c: Config, s: State, ev: Event, q: QueueType)
    requires Enabled(c, s, ev) && StatusBooks(s, q) && ev.Create?
    ensures StatusBooks(FireHttp(c, s, ev), q)
  {
    var t := FireHttp(c, s, ev);
    if t.db != s.db {
      RowMoves(s.db, t.db[ev.id], q);
    }
  }

  lemma ResetStatus(c: Config, s: State, ev: Event, q: QueueType)
    requires Base(c, s) && Enabled(c, s, ev) && StatusBooks(s, q) && ev.ResetRetry?
    ensures StatusBooks(FireHttp(c, s, ev), q)
  {
    var t, id := FireHttp(c, s, ev), s.hs[ev.t].id;
    if t.db != s.db {
      RowMoves(s.db, t.db[id], q);
    }
  }

  // The step leaves the books of queue q right unless it overwrites a finished row of q.
  lemma QueueStatus(c: Config, s: State, ev: Event, q: QueueType)
    requires Base(c, s) && Enabled(c, s, ev) && !ev.Crash? && StatusBooks(s, q)
    ensures StatusBooks(Fire(c, s, ev), q) <==> !(Overwrites(c, s, ev) && Write(c, s, ev).value.job.queue == q)
  {
    if ev.Work? {
      PerformInStep(c, s, ev.i, ev.act);
      WorkStatus(c, s, ev.i, ev.act, Perform(c, s, ev.i, ev.act), q);
    } else if ev.Scan? {
      ScanStatus(c, s, ev, q);
    } else if ev.Create? {
      CreateStatus(c, s, ev, q);
    } else if ev.ResetRetry? {
      ResetStatus(c, s, ev, q);
    } else {
      IdleWrites(c, s, ev);
    }
  }

  ghost predicate AllStatusBooks(s: State) {
    forall q :: StatusBooks(s, q)
  }

  lemma StepStatus(c: Config, s: State, ev: Event)
    requires Base(c, s) && Enabled(c, s, ev) && !ev.Crash? && AllStatusBooks(s)
    ensures AllStatusBooks(Fire(c, s, ev)) <==> !Overwrites(c, s, ev)
  {
    forall q ensures StatusBooks(Fire(c, s, ev), q) <==> !(Overwrites(c, s, ev) && Write(c, s, ev).value.job.queue == q) {
      QueueStatus(c, s, ev, q);
    }
    if Overwrites(c, s, ev) {
      assert !StatusBooks(Fire(c, s, ev), Write(c, s, ev).value.job.queue);
    }
  }

  // The counters of a queue are recoverable from the table.
  ghost predicate QueueBalance(s: State, q: QueueType) {
    && Read(s.met.submitted, q)
         == Rows(s.db, q, Pending) + Rows(s.db, q, Processing) + Rows(s.db, q, Completed) + Rows(s.db, q, Failed)
    && Read(s.met.completed, q) == Rows(s.db, q, Completed)
    && Read(s.met.failed, q) == Rows(s.db, q, Failed) + Read(s.met.revived, q)
  }

  ghost predicate StatusBalance(s: State) {
    forall q :: QueueBalance(s, q)
  }

  lemma QueueIsBooks(s: State, q: QueueType)
    ensures QueueBalance(s, q) <==> StatusBooks(s, q)
  {
    RowsPartition(s.db, q);
    SumKeysIsCohort(s.db, s.db.Keys, q, Completed);
    SumKeysIsCohort(s.db, s.db.Keys, q, Failed);
  }

  lemma BalanceIsBooks(s: State)
    ensures StatusBalance(s) <==> AllStatusBooks(s)
  {
    forall q ensures QueueBalance(s, q) <==> StatusBooks(s, q) { QueueIsBooks(s, q); }
  }

  // One process lifetime.
  ghost predicate CrashFree(evs: seq<Event>, m: nat) {
    forall x :: 0 <= x < m && x < |evs| ==> !evs[x].Crash?
  }

  // Status accounting, exactly: over one process lifetime the counters match the table
  // at every step boundary if and only if no worker and no scanner ever writes over a
  // row that is already completed or failed.
  lemma StatusAccounting(c: Config, ss: seq<State>, evs: seq<Event>, m: nat)
    requires Run(c, ss, evs) && m < |ss| && CrashFree(evs, m)
    ensures (forall k :: 0 <= k <= m ==> StatusBalance(ss[k]))
       <==> (forall k :: 0 <= k < m ==> !Overwrites(c, ss[k], evs[k]))
  {
    var good := (k: nat) => k < |ss| && StatusBalance(ss[k]);
    var clean := (k: nat) => k < |evs| && Enabled(c, ss[k], evs[k]) && !Overwrites(c, ss[k], evs[k]);
    BalanceIsBooks(ss[0]);
    forall k: nat | k < m && good(k) ensures good(k + 1) <==> clean(k) {
      BalanceIsBooks(ss[k]);
      BalanceIsBooks(ss[k + 1]);
      RunSane(c, ss, evs, k);
      StepStatus(c, ss[k], evs[k]);
    }
    ExactlyWhile(good, clean, m);
    assert forall k :: 0 <= k <= m ==> (good(k) <==> StatusBalance(ss[k]));
    assert forall k :: 0 <= k < m ==> (clean(k) <==> !Overwrites(c, ss[k], evs[k]));
  }

  // ---- retry conservation ---------------------------------------------------------------

  ghost predicate RetryBooks(s: State, q: QueueType) {
    Sum(s.db, RetryWeight(q)) + Read(s.met.erased, q) == Read(s.met.retried, q) + Read(s.met.failed, q)
  }

  lemma WorkRetries(c: Config, s: State, i: nat, act: Act, e: Effect, q: QueueType)
    requires i < |s.ws| && RetryBooks(s, q) && InStep(s, i, act, e)
    requires e.nacked ==> s.ws[i].pc.NackWriting? && e.row.value.job == s.ws[i].pc.job
    ensures RetryBooks(Apply(c, s, i, e), q) <==>
      !(e.nacked && e.row.value.job.queue == q && s.ws[i].pc.retries != s.db[e.row.value.job.id].retries)
  {
    if e.row.Some? {
      RowMoves(s.db, e.row.value, q);
    }
  }

  lemma HttpRetries(c: Config, s: State, ev: Event, q: QueueType)
    requires Base(c, s) && Enabled(c, s, ev) && RetryBooks(s, q) && (ev.Create? || ev.ResetRetry?)
    ensures RetryBooks(FireHttp(c, s, ev), q)
  {
    var t, id := FireHttp(c, s, ev), if ev.Create? then ev.id else s.hs[ev.t].id;
    if t.db != s.db {
      RowMoves(s.db, t.db[id], q);
    }
  }

  // Another queue's books, or a step that is no stale nack, stay as they were.
  lemma QueueRetries(c: Config, s: State, ev: Event, q: QueueType)
    requires Base(c, s) && Enabled(c, s, ev) && !ev.Crash? && RetryBooks(s, q)
    ensures RetryBooks(Fire(c, s, ev), q) <==> !(Stale(s, ev) && s.ws[ev.i].pc.job.queue == q)
  {
    if ev.Work? {
      PerformInStep(c, s, ev.i, ev.act);
      WorkRetries(c, s, ev.i, ev.act, Perform(c, s, ev.i, ev.act), q);
    } else if ev.Scan? {
      ScanWrites(c, s, ev);
      if Write(c, s, ev).Some? { RowMoves(s.db, Write(c, s, ev).value, q); }
    } else if ev.Create? || ev.ResetRetry? {
      HttpRetries(c, s, ev, q);
    } else {
      IdleWrites(c, s, ev);
    }
  }

  // The retry counts in the table add up to the nacks counted, once the counts wiped by
  // manual retries are added back.
  ghost predicate RetryBalance(s: State) {
    forall q :: RetryBooks(s, q)
  }

  lemma StepRetries(c: Config, s: State, ev: Event)
    requires Base(c, s) && Enabled(c, s, ev) && !ev.Crash? && RetryBalance(s)
    ensures RetryBalance(Fire(c, s, ev)) <==> !Stale(s, ev)
  {
    forall q ensures RetryBooks(Fire(c, s, ev), q) <==> !(Stale(s, ev) && s.ws[ev.i].pc.job.queue == q) {
      QueueRetries(c, s, ev, q);
    }
    if Stale(s, ev) {
      assert !RetryBooks(Fire(c, s, ev), s.ws[ev.i].pc.job.queue);
    }
  }

  // Retry conservation, exactly: over one process lifetime no increment is lost or made
  // up if and only if no nack writes over a count that changed since it was read. On
  // Postgres nothing is ever wiped.
  lemma RetryConservation(c: Config, ss: seq<State>, evs: seq<Event>, m: nat)
    requires Run(c, ss, evs) && m < |ss| && CrashFree(evs, m)
    ensures (forall k :: 0 <= k <= m ==> RetryBalance(ss[k]))
       <==> (forall k :: 0 <= k < m ==> !Stale(ss[k], evs[k]))
    ensures c.backend.Postgres? ==> forall q :: Read(ss[m].met.erased, q) == 0
  {
    var good := (k: nat) => k < |ss| && RetryBalance(ss[k]);
    var clean := (k: nat) => k < |evs| && !Stale(ss[k], evs[k]);
    forall k: nat | k < m && good(k) ensures good(k + 1) <==> clean(k) {
      RunSane(c, ss, evs, k);
      StepRetries(c, ss[k], evs[k]);
    }
    ExactlyWhile(good, clean, m);
    assert forall k :: 0 <= k <= m ==> (good(k) <==> RetryBalance(ss[k]));
    assert forall k :: 0 <= k < m ==> (clean(k) <==> !Stale(ss[k], evs[k]));
    forall q | c.backend.Postgres? ensures Read(ss[m].met.erased, q) == 0 { NothingErased(c, ss, evs, m, q); }
  }

  lemma {:induction false} NothingErased(c: Config, ss: seq<State>, evs: seq<Event>, k: nat, q: QueueType)
    requires Run(c, ss, evs) && k < |ss| && c.backend.Postgres?
    ensures Read(ss[k].met.erased, q) == 0
  {
    if k > 0 {
      NothingErased(c, ss, evs, k - 1, q);
      ErasedStep(c, ss[k - 1], evs[k - 1], q);
    }
  }

  lemma ErasedStep(c: Config, s: State, ev: Event, q: QueueType)
    requires Enabled(c, s, ev) && c.backend.Postgres? && Read(s.met.erased, q) == 0
    ensures Read(Fire(c, s, ev).met.erased, q) == 0
  {
    if ev.Work? {
      WorkErases(c, s, ev.i, Perform(c, s, ev.i, ev.act));
    } else if ev.ResetRetry? {
      assert Fire(c, s, ev) == FireHttp(c, s, ev);
    } else {
      OthersErase(c, s, ev);
    }
  }

  lemma WorkErases(c: Config, s: State, i: nat, e: Effect)
    requires i < |s.ws|
    ensures Apply(c, s, i, e).met.erased == s.met.erased
  {
  }

  lemma OthersErase(c: Config, s: State, ev: Event)
    requires Enabled(c, s, ev) && !ev.Work? && !ev.ResetRetry?
    ensures Fire(c, s, ev).met.erased == if ev.Crash? then map[] else s.met.erased
  {
  }

  // ---- the retry budget of one job over a whole run --------------------------------

  // Nacks a job survives in all when it has been revived r times: three per life on
  // Postgres; on SQLite each revival wipes the count and keeps the raised limit.
  function Allowance(backend: Backend, r: nat): nat {
    if backend.Postgres? then 3 * (r + 1) else 3 * (r + 1) * (r + 2) / 2
  }

  function Wiped(backend: Backend, r: nat): nat {
    if backend.Postgres? then 0 else 3 * r * (r + 1) / 2
  }

  lemma WipedNext(backend: Backend, r: nat)
    ensures Allowance(backend, r) == Wiped(backend, r) + 3 * (r + 1)
    ensures backend.Sqlite? ==> Wiped(backend, r + 1) == Allowance(backend, r)
  {
    assert 3 * (r + 1) * (r + 2) == 3 * r * (r + 1) + 2 * (3 * (r + 1));
  }

  // The limit of a row grows by three with each manual retry, and only then.
  ghost predicate Limited(s: State, id: JobId) {
    var n, r := Read(s.hist.nacks, id), Read(s.hist.revivals, id);
    if id in s.db then s.db[id].maxRetries == 3 + 3 * r else n == 0 && r == 0
  }

  // After n nacks in r + 1 lives: the count is the true number of nacks (less what was
  // wiped), and the job has failed exactly when that number has reached the allowance.
  predicate Exact(backend: Backend, n: nat, r: nat, row: Row) {
    && row.retries == n - Wiped(backend, r)
    && n <= Allowance(backend, r) && (row.status.Failed? <==> n == Allowance(backend, r))
  }

  ghost predicate NackExact(c: Config, s: State, id: JobId) {
    id in s.db ==> Exact(c.backend, Read(s.hist.nacks, id), Read(s.hist.revivals, id), s.db[id])
  }

  // What spoils the budget of a job: writing over its failed row, or a nack that is not
  // what one atomic nack of the row as it stands would be.
  ghost predicate Spoils(c: Config, s: State, ev: Event, id: JobId)
    requires Enabled(c, s, ev)
  {
    var w := Write(c, s, ev);
    && w.Some? && w.value.job.id == id && id in s.db
    && (s.db[id].status.Failed?
        || (ev.Work? && ev.act.NackWrite? && w.value != RetryBudget.Apply(s.db[id], RetryBudget.Nack(s.now))))
  }

  // Writing `row` over old' keeps the count exact if old' had not failed and a nack counts
  // one and judges as one nack of old' would - and only then.
  lemma WriteIsExact(backend: Backend, n: nat, r: nat, old': Row, row: Row, nacked: bool)
    requires old'.maxRetries == 3 + 3 * r && Exact(backend, n, r, old')
    requires !nacked ==> row.retries == old'.retries && !row.status.Failed?
    ensures Exact(backend, n + Bit(nacked), r, row)
       <==> !old'.status.Failed? && (nacked ==> row.retries == old'.retries + 1 && SameVerdict(old', row))
  {
    WipedNext(backend, r);
  }

  predicate SameVerdict(old': Row, row: Row) {
    row.status.Failed? <==> NackStatus(old'.retries, old'.maxRetries).Failed?
  }

  lemma SameNack(old': Row, retries: int, maxRetries: int, now: Time)
    ensures NackedRow(old', retries, maxRetries, now) == NackedRow(old', old'.retries, old'.maxRetries, now)
       <==> retries == old'.retries
            && (NackStatus(retries, maxRetries).Failed? <==> NackStatus(old'.retries, old'.maxRetries).Failed?)
  {
  }

  // A worker's write over the row of `id` itself.
  lemma OwnWriteNacks(c: Config, s: State, i: nat, act: Act, id: JobId)
    requires Base(c, s) && i < |s.ws| && ActEnabled(c, s, i, act) && Limited(s, id) && NackExact(c, s, id)
    requires var e := Perform(c, s, i, act); InStep(s, i, act, e) && e.row.Some? && e.row.value.job.id == id
    ensures
      var e := Perform(c, s, i, act);
      Exact(c.backend, Read(s.hist.nacks, id) + Bit(e.nacked), Read(s.hist.revivals, id), e.row.value) <==>
        !Spoils(c, s, Work(i, act), id)
  {
    var e := Perform(c, s, i, act);
    PerformInStep(c, s, i, act);
    WriteIsExact(c.backend, Read(s.hist.nacks, id), Read(s.hist.revivals, id), s.db[id], e.row.value, e.nacked);
    if e.nacked {
      NackWriteShape(c, s, i);
      SameNack(s.db[id], s.ws[i].pc.retries, s.ws[i].pc.maxRetries, s.now);
    }
  }

  lemma WorkNacks(c: Config, s: State, i: nat, act: Act, id: JobId)
    requires Base(c, s) && i < |s.ws| && ActEnabled(c, s, i, act) && Limited(s, id) && NackExact(c, s, id)
    ensures var t := Apply(c, s, i, Perform(c, s, i, act));
            Limited(t, id) && (NackExact(c, t, id) <==> !Spoils(c, s, Work(i, act), id))
  {
    var e := Perform(c, s, i, act);
    PerformInStep(c, s, i, act);
    LimitedWork(c, s, i, act, e, id);
    if e.row.Some? && e.row.value.job.id == id {
      OwnWriteNacks(c, s, i, act, id);
    }
  }

  lemma NackWriteShape(c: Config, s: State, i: nat)
    requires Base(c, s) && i < |s.ws| && ActEnabled(c, s, i, NackWrite(true))
    ensures var pc := s.ws[i].pc;
            && pc.job.id in s.db
            && Perform(c, s, i, NackWrite(true)).row == Some(NackedRow(s.db[pc.job.id], pc.retries, pc.maxRetries, s.now))
  {
    assert WorkerOk(s.db, s.ws[i]);
  }

  lemma ScanNacks(c: Config, s: State, ev: Event, id: JobId)
    requires Base(c, s) && Enabled(c, s, ev) && ev.Scan? && Limited(s, id) && NackExact(c, s, id)
    ensures Limited(Fire(c, s, ev), id) && (NackExact(c, Fire(c, s, ev), id) <==> !Spoils(c, s, ev, id))
  {
    ScanWrites(c, s, ev);
  }

  lemma HttpNacks(c: Config, s: State, ev: Event, id: JobId)
    requires Base(c, s) && Enabled(c, s, ev) && Limited(s, id) && NackExact(c, s, id)
    requires ev.Create? || ev.ResetRetry?
    ensures Limited(FireHttp(c, s, ev), id) && NackExact(c, FireHttp(c, s, ev), id)
  {
    WipedNext(c.backend, Read(s.hist.revivals, id));
    if ev.ResetRetry? && id in s.db { WipedNext(c.backend, Read(s.hist.revivals, id) + 1); }
  }

  lemma StepNacks(c: Config, s: State, ev: Event, id: JobId)
    requires Base(c, s) && Enabled(c, s, ev) && Limited(s, id) && NackExact(c, s, id)
    ensures Limited(Fire(c, s, ev), id) && (NackExact(c, Fire(c, s, ev), id) <==> !Spoils(c, s, ev, id))
  {
    if ev.Work? {
      WorkNacks(c, s, ev.i, ev.act, id);
    } else if ev.Scan? {
      ScanNacks(c, s, ev, id);
    } else if ev.Create? || ev.ResetRetry? {
      HttpNacks(c, s, ev, id);
    } else if !ev.Crash? {
      IdleWrites(c, s, ev);
    }
  }

  // The exact nack, exactly: through any run, crashes and recoveries included, the job's
  // count is true and it fails at exactly the nack that uses up its allowance, if and
  // only if nothing writes over its row once it has failed and no nack of it writes
  // anything but one nack of the row as it stands.
  lemma FailsAtExactNack(c: Config, ss: seq<State>, evs: seq<Event>, m: nat, id: JobId)
    requires Run(c, ss, evs) && m < |ss|
    ensures (forall k :: 0 <= k <= m ==> NackExact(c, ss[k], id))
       <==> (forall k :: 0 <= k < m ==> !Spoils(c, ss[k], evs[k], id))
  {
    var good := (k: nat) => k < |ss| && Limited(ss[k], id) && NackExact(c, ss[k], id);
    var clean := (k: nat) => k < |evs| && Enabled(c, ss[k], evs[k]) && !Spoils(c, ss[k], evs[k], id);
    forall k: nat | k < m && good(k) ensures good(k + 1) <==> clean(k) {
      RunSane(c, ss, evs, k);
      StepNacks(c, ss[k], evs[k], id);
    }
    ExactlyWhile(good, clean, m);
    forall k | 0 <= k <= m ensures good(k) <==> NackExact(c, ss[k], id) { RunLimited(c, ss, evs, k, id); }
    assert forall k :: 0 <= k < m ==> (clean(k) <==> !Spoils(c, ss[k], evs[k], id));
  }

  lemma LimitedStep(c: Config, s: State, ev: Event, id: JobId)
    requires Base(c, s) && Enabled(c, s, ev) && Limited(s, id)
    ensures Limited(Fire(c, s, ev), id)
  {
    if ev.Work? {
      PerformInStep(c, s, ev.i, ev.act);
      LimitedWork(c, s, ev.i, ev.act, Perform(c, s, ev.i, ev.act), id);
    } else if ev.Scan? {
      ScanWrites(c, s, ev);
    } else if Idle(ev) {
      IdleWrites(c, s, ev);
    }
  }

  lemma LimitedWork(c: Config, s: State, i: nat, act: Act, e: Effect, id: JobId)
    requires i < |s.ws| && InStep(s, i, act, e) && Limited(s, id)
    ensures Limited(Apply(c, s, i, e), id)
  {
  }

  lemma {:induction false} RunLimited(c: Config, ss: seq<State>, evs: seq<Event>, k: nat, id: JobId)
    requires Run(c, ss, evs) && k < |ss|
    ensures Limited(ss[k], id)
  {
    if k > 0 {
      RunLimited(c, ss, evs, k - 1, id);
      RunSane(c, ss, evs, k - 1);
      LimitedStep(c, ss[k - 1], evs[k - 1], id);
    }
  }

  // ---- and when scanners pick up orphans only ----------------------------------------

  // As long as each job has one owner, none of the three conditions is ever violated.
  lemma OrphansKeepBooks(c: Config, ss: seq<State>, evs: seq<Event>, m: nat)
    requires Run(c, ss, evs) && m < |ss| && OnlyOrphans(c, ss, evs, m)
    ensures forall k :: 0 <= k < m ==> !Overwrites(c, ss[k], evs[k]) && !Stale(ss[k], evs[k])
    ensures forall k, id :: 0 <= k < m ==> !Spoils(c, ss[k], evs[k], id)
  {
    forall k | 0 <= k < m
      ensures !Overwrites(c, ss[k], evs[k]) && !Stale(ss[k], evs[k])
      ensures forall id :: !Spoils(c, ss[k], evs[k], id)
    {
      RunInv(c, ss, evs, k);
      InvIsClean(c, ss[k], evs[k]);
    }
  }

  lemma InvIsClean(c: Config, s: State, ev: Event)
    requires Inv(c, s) && Enabled(c, s, ev) && Harmless(c, s, ev)
    ensures !Overwrites(c, s, ev) && !Stale(s, ev) && forall id :: !Spoils(c, s, ev, id)
  {
    if ev.Work? {
      WorkIsClean(c, s, ev.i, ev.act);
    }
  }

  lemma WorkIsClean(c: Config, s: State, i: nat, act: Act)
    requires Inv(c, s) && i < |s.ws| && ActEnabled(c, s, i, act)
    ensures var ev := Work(i, act); !Overwrites(c, s, ev) && !Stale(s, ev) && forall id :: !Spoils(c, s, ev, id)
  {
    PerformLegal(c, s, i, act);
    if Carries(s.ws[i].pc) { HandIsLive(s, i); }
    assert FreshRead(s.db, s.ws[i]);
    if act == NackWrite(true) { NackWriteShape(c, s, i); }
  }
}
