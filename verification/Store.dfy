// The jobs table as a value: each SQL statement of the two backends is one function.
module Tables {
  import opened Models
  import opened Ordering

  datatype Backend = Sqlite | Postgres

  // SET status, updated_at, and processed_at when the new status is terminal.
  function Stamp(row: Row, status: Status, now: Time): Row {
    row.(status := status, updatedAt := now,
         processedAt := if status.Terminal() then Some(now) else row.processedAt)
  }

  function SetStatus(db: Table, id: JobId, status: Status, now: Time): Table
    requires id in db
  {
    db[id := Stamp(db[id], status, now)]
  }

  function SetRetry(db: Table, id: JobId, status: Status, retries: int, now: Time): Table
    requires id in db
  {
    db[id := Stamp(db[id], status, now).(retries := retries)]
  }

  // A preempted job; the statement does not look at the row's status.
  function RequeuedRow(row: Row, now: Time): Row {
    row.(status := Pending, updatedAt := now)
  }

  function Requeue(db: Table, id: JobId, now: Time): Table {
    if id in db then db[id := RequeuedRow(db[id], now)] else db
  }

  // Recovery and the sweepers reset a row that was processing when it was listed,
  // whatever it has become since.
  function ResetListed(db: Table, listed: Row, now: Time): Table {
    if listed.status.Processing? && listed.job.id in db then SetStatus(db, listed.job.id, Pending, now) else db
  }

  predicate Resettable(db: Table, id: JobId) {
    id in db && db[id].status.Failed?
  }

  function ResetRow(backend: Backend, row: Row, extra: int, now: Time): Row {
    row.(status := Pending, maxRetries := row.maxRetries + extra, updatedAt := now,
         retries := if backend.Sqlite? then 0 else row.retries)
  }

  function ResetForRetry(backend: Backend, db: Table, id: JobId, extra: int, now: Time): Table
    requires Resettable(db, id)
  {
    db[id := ResetRow(backend, db[id], extra, now)]
  }

  // What Nack writes, given the counters it has just read.
  function NackStatus(retries: int, maxRetries: int): Status {
    if retries + 1 >= maxRetries then Failed else Pending
  }

  function NackedRow(row: Row, retries: int, maxRetries: int, now: Time): Row {
    Stamp(row, NackStatus(retries, maxRetries), now).(retries := retries + 1)
  }

  function NewRow(job: Job): Row {
    Row(job, Pending, 0, 3, job.createdAt, None)
  }

  function JobsOf(list: seq<Row>): (r: seq<Job>)
    ensures |r| == |list| && forall i :: 0 <= i < |list| ==> r[i] == list[i].job
  {
    seq(|list|, i requires 0 <= i < |list| => list[i].job)
  }

  // An answer to ListPendingJobs: every non-terminal row once, ordered by
  // (priority DESC, created_at ASC); the database may order ties as it likes.
  ghost predicate IsListing(db: Table, list: seq<Row>) {
    && (forall i :: 0 <= i < |list| ==> Live(db, list[i].job.id) && db[list[i].job.id] == list[i])
    && (forall id :: Live(db, id) ==> exists i :: 0 <= i < |list| && list[i].job.id == id)
    && (forall i, k :: 0 <= i < k < |list| ==> list[i].job.id != list[k].job.id)
    && Sorted(JobsOf(list))
  }

  // The rows of a listing that satisfy p, in order.
  function Select(list: seq<Row>, p: Row -> bool): (r: seq<Row>) {
    if list == [] then []
    else Chosen(list[0], p) + Select(list[1..], p)
  }

  function Chosen(row: Row, p: Row -> bool): seq<Row> {
    if p(row) then [row] else []
  }

  lemma Regroup(a: seq<Row>, b: seq<Row>, c: seq<Row>)
    ensures a + (b + c) == (a + b) + c
  {
  }

  lemma SelectCons(list: seq<Row>, p: Row -> bool)
    requires list != []
    ensures Select(list, p) == Chosen(list[0], p) + Select(list[1..], p)
  {
  }

  lemma {:induction false} SelectSnoc(list: seq<Row>, row: Row, p: Row -> bool)
    ensures Select(list + [row], p) == Select(list, p) + Chosen(row, p)
  {
    var more := list + [row];
    SelectCons(more, p);
    if list == [] {
      assert more == [row] && more[1..] == [];
    } else {
      var rest := list[1..];
      assert more[0] == list[0] && more[1..] == rest + [row];
      SelectSnoc(rest, row, p);
      SelectCons(list, p);
      Regroup(Chosen(list[0], p), Select(rest, p), Chosen(row, p));
    }
  }

  lemma {:induction false} SelectMembers(list: seq<Row>, p: Row -> bool)
    ensures forall x :: x in Select(list, p) <==> x in list && p(x)
  {
    if list != [] {
      SelectMembers(list[1..], p);
      assert list == [list[0]] + list[1..];
    }
  }

  lemma {:induction false} SelectSorted(list: seq<Row>, p: Row -> bool)
    requires Sorted(JobsOf(list))
    ensures Sorted(JobsOf(Select(list, p)))
  {
    if list != [] {
      var jobs := JobsOf(list);
      forall i, k | 0 <= i < k < |list| - 1 ensures !Outranks(list[1..][k].job, list[1..][i].job) {
        assert !Outranks(jobs[k + 1], jobs[i + 1]);
      }
      SelectSorted(list[1..], p);
      SelectMembers(list[1..], p);
      var rest := Select(list[1..], p);
      forall k | 0 <= k < |rest| ensures !Outranks(rest[k].job, list[0].job) {
        assert rest[k] in list[1..];
        var x :| 0 <= x < |list[1..]| && list[1..][x] == rest[k];
        assert !Outranks(jobs[x + 1], jobs[0]);
      }
    }
  }

  function AnyRow(): Row -> bool { (r: Row) => true }
  function PriorityRow(): Row -> bool { (r: Row) => r.job.queue.Priority? }

  // time.Since(updated_at) > 10 minutes
  function StaleRow(now: Time): Row -> bool { (r: Row) => now - r.updatedAt > 10 * MINUTE }

  // What a sweep re-enqueues: pending rows and processing rows gone stale.
  function SweptRow(now: Time): Row -> bool {
    (r: Row) => r.status.Pending? || (r.status.Processing? && now - r.updatedAt > 10 * MINUTE)
  }

  function SweptPriorityRow(now: Time): Row -> bool {
    (r: Row) => r.job.queue.Priority? && (r.status.Pending? || (r.status.Processing? && now - r.updatedAt > 10 * MINUTE))
  }

  function StalePriorityRow(now: Time): Row -> bool {
    (r: Row) => r.job.queue.Priority? && now - r.updatedAt > 10 * MINUTE
  }

  // What recovery and sweeping may do to the table: move some non-terminal rows
  // that `touched` allows back to pending, and nothing else.
  ghost predicate OnlyResets(a: Table, b: Table, now: Time, touched: Row -> bool) {
    && a.Keys == b.Keys
    && forall id :: id in a ==>
         || b[id] == a[id]
         || (a[id].status == Processing && touched(a[id]) && b[id] == Stamp(a[id], Pending, now))
  }

  // The state recovery must not lose, however often it is interrupted.
  ghost predicate SameObligations(a: Table, b: Table) {
    && a.Keys == b.Keys
    && forall id :: id in a ==>
         && a[id].job == b[id].job
         && a[id].retries == b[id].retries && a[id].maxRetries == b[id].maxRetries
         && a[id].status.Terminal() == b[id].status.Terminal()
         && (a[id].status.Terminal() ==> a[id] == b[id])
  }

  lemma ResetsKeepObligations(a: Table, b: Table, now: Time, touched: Row -> bool)
    requires OnlyResets(a, b, now, touched)
    ensures SameObligations(a, b)
  {
  }

  // The table after every processing row that `touched` allows has been reset.
  function ResetAll(db: Table, now: Time, touched: Row -> bool): Table {
    map id | id in db :: if db[id].status.Processing? && touched(db[id]) then Stamp(db[id], Pending, now) else db[id]
  }

  lemma ObligationsChain(a: Table, b: Table, c: Table)
    requires SameObligations(a, b) && SameObligations(b, c)
    ensures SameObligations(a, c)
  {
  }

  lemma SetStatusResets(a: Table, b: Table, id: JobId, now: Time, touched: Row -> bool)
    requires OnlyResets(a, b, now, touched)
    requires id in a && b[id] == a[id] && a[id].status == Processing && touched(a[id])
    ensures OnlyResets(a, SetStatus(b, id, Pending, now), now, touched)
  {
  }
}

// Both storage backends behind the Storage interface. Every method takes `up`,
// false when the statement fails; a failed statement leaves the table as it was.
module JobStore {
  import opened Models
  import opened Ordering
  import opened Tables
  import opened Counting

  datatype Error = Unavailable | Duplicate | NotFound | NotFailed | QueueClosed | QueueFull

  datatype Outcome = Ok | Err(error: Error)

  datatype Result<+T> = Success(value: T) | Failure(error: Error)

  class Store {
    const backend: Backend
    var rows: Table
    var completed: map<QueueType, nat>
    var failed: map<QueueType, nat>
    var retried: map<QueueType, nat>
    // the table after each statement that changed it, oldest first
    ghost var journal: seq<Table>

    ghost predicate Valid()
      reads this
    {
      Keyed(rows) && journal != [] && journal[|journal| - 1] == rows
    }

    constructor (backend: Backend, rows: Table)
      requires Keyed(rows)
      ensures Valid() && this.backend == backend && this.rows == rows && journal == [rows]
      ensures completed == failed == retried == map[]
    {
      this.backend := backend;
      this.rows := rows;
      completed, failed, retried := map[], map[], map[];
      journal := [rows];
    }

    // JobsCompleted, JobsFailed and JobsRetried.
    ghost function Counters(): (map<QueueType, nat>, map<QueueType, nat>, map<QueueType, nat>)
      reads this
    {
      (completed, failed, retried)
    }

    method SaveJob(job: Job, up: bool) returns (r: Outcome)
      requires Valid()
      modifies `rows, `journal
      ensures Valid()
      ensures r == if !up then Err(Unavailable) else if job.id in old(rows) then Err(Duplicate) else Ok
      ensures r.Ok? ==> rows == old(rows)[job.id := NewRow(job)] && journal == old(journal) + [rows]
      ensures r.Ok? ==> rows[job.id] == Row(job, Pending, 0, 3, job.createdAt, None)
      ensures r.Err? ==> rows == old(rows) && journal == old(journal)
    {
      if !up { return Err(Unavailable); }
      if job.id in rows { return Err(Duplicate); }
      rows := rows[job.id := NewRow(job)];
      journal := journal + [rows];
      r := Ok;
    }

    method GetJob(id: JobId, up: bool) returns (r: Result<Option<Row>>)
      ensures r == if !up then Failure(Unavailable)
                   else Success(if id in rows then Some(rows[id]) else None)
    {
      if !up { return Failure(Unavailable); }
      r := Success(if id in rows then Some(rows[id]) else None);
    }

    method UpdateJobStatus(id: JobId, status: Status, now: Time, up: bool) returns (r: Outcome)
      requires Valid()
      modifies `rows, `journal, `completed, `failed
      ensures Valid()
      ensures r == if !up then Err(Unavailable) else if id !in old(rows) then Err(NotFound) else Ok
      ensures r.Err? ==> rows == old(rows) && journal == old(journal)
      ensures r.Err? ==> completed == old(completed) && failed == old(failed)
      ensures r.Ok? ==> rows == SetStatus(old(rows), id, status, now) && journal == old(journal) + [rows]
      // column by column: status and updated_at are written, processed_at when the job is
      // finished, and nothing else
      ensures r.Ok? ==>
        var before, after := old(rows)[id], rows[id];
        && after.status == status && after.updatedAt == now
        && after.processedAt == (if status == Completed || status == Failed then Some(now) else before.processedAt)
        && after.job == before.job && after.retries == before.retries && after.maxRetries == before.maxRetries
      ensures r.Ok? ==> rows.Keys == old(rows).Keys && forall x :: x in rows && x != id ==> rows[x] == old(rows)[x]
      ensures !status.Terminal() ==> Counters() == old(Counters())
      ensures r.Ok? ==> forall q ::
        && Read(completed, q) == Read(old(completed), q) + Bit(status.Completed? && q == rows[id].job.queue)
        && Read(failed, q) == Read(old(failed), q) + Bit(status.Failed? && q == rows[id].job.queue)
    {
      var job := GetJob(id, up);
      if job.Failure? { return Err(job.error); }
      if job.value.None? { return Err(NotFound); }
      rows := SetStatus(rows, id, status, now);
      journal := journal + [rows];
      match status {
        case Completed => completed := Add(completed, job.value.value.job.queue, 1);
        case Failed => failed := Add(failed, job.value.value.job.queue, 1);
        case _ =>
      }
      r := Ok;
    }

    method UpdateJobRetry(id: JobId, status: Status, retries: int, now: Time, up: bool) returns (r: Outcome)
      requires Valid()
      modifies `rows, `journal, `retried, `failed
      ensures Valid()
      ensures r == if !up then Err(Unavailable) else if id !in old(rows) then Err(NotFound) else Ok
      ensures r.Err? ==> rows == old(rows) && journal == old(journal)
      ensures r.Err? ==> retried == old(retried) && failed == old(failed)
      ensures r.Ok? ==> rows == SetRetry(old(rows), id, status, retries, now) && journal == old(journal) + [rows]
      ensures r.Ok? ==>
        var before, after := old(rows)[id], rows[id];
        && after.status == status && after.retries == retries && after.updatedAt == now
        && after.processedAt == (if status == Completed || status == Failed then Some(now) else before.processedAt)
        && after.job == before.job && after.maxRetries == before.maxRetries
      ensures r.Ok? ==> rows.Keys == old(rows).Keys && forall x :: x in rows && x != id ==> rows[x] == old(rows)[x]
      ensures r.Ok? ==> forall q ::
        && Read(retried, q) == Read(old(retried), q) + Bit(status.Pending? && q == rows[id].job.queue)
        && Read(failed, q) == Read(old(failed), q) + Bit(status.Failed? && q == rows[id].job.queue)
    {
      var job := GetJob(id, up);
      if job.Failure? { return Err(job.error); }
      if job.value.None? { return Err(NotFound); }
      rows := SetRetry(rows, id, status, retries, now);
      journal := journal + [rows];
      match status {
        case Pending => retried := Add(retried, job.value.value.job.queue, 1);
        case Failed => failed := Add(failed, job.value.value.job.queue, 1);
        case _ =>
      }
      r := Ok;
    }

    // Succeeds even when no row has this id.
    method RequeueJob(id: JobId, now: Time, up: bool) returns (r: Outcome)
      requires Valid()
      modifies `rows, `journal
      ensures Valid()
      ensures r == if up then Ok else Err(Unavailable)
      ensures rows == if up then Requeue(old(rows), id, now) else old(rows)
      ensures journal == if up then old(journal) + [rows] else old(journal)
      // pending again, without penalty, and no other row is touched
      ensures up && id in old(rows) ==>
        var before, after := old(rows)[id], rows[id];
        && after.status == Pending && after.updatedAt == now
        && after.job == before.job && after.processedAt == before.processedAt
      ensures rows.Keys == old(rows).Keys
      ensures forall x :: x in rows ==> rows[x].retries == old(rows)[x].retries && rows[x].maxRetries == old(rows)[x].maxRetries
      ensures forall x :: x in rows && x != id ==> rows[x] == old(rows)[x]
    {
      if !up { return Err(Unavailable); }
      rows := Requeue(rows, id, now);
      journal := journal + [rows];
      r := Ok;
    }

    method ResetJobForRetry(id: JobId, extra: int, now: Time, up: bool) returns (r: Outcome)
      requires Valid()
      modifies `rows, `journal
      ensures Valid()
      ensures r == if !up then Err(Unavailable) else if !Resettable(old(rows), id) then Err(NotFailed) else Ok
      ensures r.Err? ==> rows == old(rows) && journal == old(journal)
      ensures r.Ok? ==> rows == ResetForRetry(backend, old(rows), id, extra, now)
      ensures r.Ok? ==> journal == old(journal) + [rows]
      ensures r.Ok? ==>
        var before, after := old(rows)[id], rows[id];
        && before.status == Failed && after.status == Pending && after.updatedAt == now
        && after.job == before.job && after.processedAt == before.processedAt
        && after.maxRetries == before.maxRetries + extra
        && after.retries == if backend.Sqlite? then 0 else before.retries
      ensures up && id in old(rows) && old(rows)[id].status == Failed ==> r.Ok?
      // a row that had used up its allowance gets `extra` more attempts, on SQLite its old
      // limit on top; no other row is touched
      ensures rows.Keys == old(rows).Keys && forall x :: x in rows && x != id ==> rows[x] == old(rows)[x]
      ensures r.Ok? && old(rows)[id].retries == old(rows)[id].maxRetries ==>
        rows[id].maxRetries - rows[id].retries == extra + if backend.Sqlite? then old(rows)[id].maxRetries else 0
    {
      if !up { return Err(Unavailable); }
      if !Resettable(rows, id) { return Err(NotFailed); }
      rows := ResetForRetry(backend, rows, id, extra, now);
      journal := journal + [rows];
      r := Ok;
    }

    // The jobs not yet finished, the most urgent first and among equals the oldest.
    method ListPendingJobs(up: bool) returns (r: Result<seq<Row>>)
      requires Valid()
      ensures r.Success? == up
      ensures up ==> IsListing(rows, r.value)
      // the unfinished jobs, each once, the more urgent first and among equals the older
      ensures up ==> forall i, k :: 0 <= i < k < |r.value| ==>
        var a, b := r.value[i].job, r.value[k].job;
        a.id != b.id && (a.priority > b.priority || (a.priority == b.priority && a.createdAt <= b.createdAt))
      ensures up ==> forall x :: x in r.value <==>
        x in rows.Values && (x.status == Pending || x.status == Processing)
    {
      if !up { return Failure(Unavailable); }
      var jobs: seq<Job> := [];
      var todo := rows.Keys;
      while todo != {}
        invariant ListedBut(rows, jobs, todo)
        decreases |todo|
      {
        var id :| id in todo;
        ListNext(rows, jobs, todo, id);
        todo := todo - {id};
        if !rows[id].status.Terminal() {
          jobs := Insert(jobs, rows[id].job);
        }
      }
      RowsOfListing(rows, jobs);
      r := Success(RowsOf(rows, jobs));
      ListingMeans(rows, r.value);
    }

    // How many rows there are of each queue type and status, by queue type and then status.
    method CountByQueueAndStatus(up: bool) returns (r: Result<map<QueueType, map<Status, nat>>>)
      ensures r.Success? == up
      ensures up ==> Tallies(r.value, rows, rows.Keys)
    {
      if !up { return Failure(Unavailable); }
      var counts: map<QueueType, map<Status, nat>> := map[];
      var todo := rows.Keys;
      ghost var done: set<JobId> := {};
      while todo != {}
        invariant todo + done == rows.Keys && todo !! done
        invariant Tallies(counts, rows, done)
        decreases |todo|
      {
        var id :| id in todo;
        todo := todo - {id};
        TallyOne(counts, rows, done, id);
        counts := Tally(counts, rows[id].job.queue, rows[id].status);
        done := done + {id};
      }
      assert done == rows.Keys;
      r := Success(counts);
    }
  }

  // `jobs` lists the live rows of db outside todo.
  ghost predicate ListedBut(db: Table, jobs: seq<Job>, todo: set<JobId>) {
    && todo <= db.Keys && Sorted(jobs) && DistinctIds(jobs)
    && (forall i :: 0 <= i < |jobs| ==> jobs[i].id in db)
    && (forall i :: 0 <= i < |jobs| ==> Live(db, jobs[i].id) && db[jobs[i].id].job == jobs[i] && jobs[i].id !in todo)
    && (forall id :: Live(db, id) && id !in todo ==> db[id].job in jobs)
  }

  lemma ListNext(db: Table, jobs: seq<Job>, todo: set<JobId>, id: JobId)
    requires Keyed(db) && ListedBut(db, jobs, todo) && id in todo
    ensures ListedBut(db, if Live(db, id) then Insert(jobs, db[id].job) else jobs, todo - {id})
  {
    if Live(db, id) {
      var job := db[id].job;
      var more := Insert(jobs, job);
      InsertSorted(jobs, job);
      InsertMembers(jobs, job);
      InsertDistinct(jobs, job);
      forall i | 0 <= i < |more|
        ensures Live(db, more[i].id) && db[more[i].id].job == more[i] && more[i].id !in todo - {id}
      {
        assert more[i] in more;
      }
    }
  }

  // The rows of the given jobs.
  function RowsOf(db: Table, jobs: seq<Job>): (r: seq<Row>)
    requires forall i :: 0 <= i < |jobs| ==> jobs[i].id in db
    ensures |r| == |jobs| && forall i :: 0 <= i < |jobs| ==> r[i] == db[jobs[i].id]
  {
    seq(|jobs|, i requires 0 <= i < |jobs| => db[jobs[i].id])
  }

  lemma RowsOfListing(db: Table, jobs: seq<Job>)
    requires Keyed(db) && Sorted(jobs) && DistinctIds(jobs)
    requires forall i :: 0 <= i < |jobs| ==> jobs[i].id in db
    requires forall i :: 0 <= i < |jobs| ==> Live(db, jobs[i].id) && db[jobs[i].id].job == jobs[i]
    requires forall id :: Live(db, id) ==> db[id].job in jobs
    ensures IsListing(db, RowsOf(db, jobs))
  {
    var list := RowsOf(db, jobs);
    assert JobsOf(list) == jobs;
    forall id | Live(db, id) ensures exists i :: 0 <= i < |list| && list[i].job.id == id {
      var i :| 0 <= i < |jobs| && jobs[i] == db[id].job;
      assert list[i].job.id == id;
    }
  }

  lemma ListingMeans(db: Table, list: seq<Row>)
    requires Keyed(db) && IsListing(db, list)
    ensures forall i, k :: 0 <= i < k < |list| ==>
      var a, b := list[i].job, list[k].job;
      a.id != b.id && (a.priority > b.priority || (a.priority == b.priority && a.createdAt <= b.createdAt))
    ensures forall x :: x in list <==> x in db.Values && (x.status == Pending || x.status == Processing)
  {
    SortedMeans(JobsOf(list));
    forall i, k | 0 <= i < k < |list|
      ensures var a, b := list[i].job, list[k].job;
              a.priority > b.priority || (a.priority == b.priority && a.createdAt <= b.createdAt)
    {
      assert JobsOf(list)[i] == list[i].job && JobsOf(list)[k] == list[k].job;
    }
    forall x ensures x in list <==> x in db.Values && (x.status == Pending || x.status == Processing) {
      ListedMeans(db, list, x);
    }
  }

  lemma ListedMeans(db: Table, list: seq<Row>, x: Row)
    requires Keyed(db) && IsListing(db, list)
    ensures x in list <==> x in db.Values && (x.status == Pending || x.status == Processing)
  {
    if x in db.Values && (x.status == Pending || x.status == Processing) {
      var id :| id in db && db[id] == x;
      assert Live(db, id);
      var i :| 0 <= i < |list| && list[i].job.id == id;
      assert list[i] == x;
    }
  }

  type Counts = map<QueueType, map<Status, nat>>

  function Cell(m: Counts, q: QueueType, s: Status): nat {
    if q in m && s in m[q] then m[q][s] else 0
  }

  function Tally(m: Counts, q: QueueType, s: Status): Counts {
    m[q := (if q in m then m[q] else map[])[s := Cell(m, q, s) + 1]]
  }

  // Each cell counts its rows, and a group with no rows has no cell.
  ghost predicate Tallies(m: Counts, db: Table, ids: set<JobId>) {
    && (forall q, s :: Cell(m, q, s) == |Cohort(db, ids, q, s)|)
    && (forall q, s :: q in m && s in m[q] ==> m[q][s] > 0)
  }

  lemma TallyCell(m: Counts, q: QueueType, s: Status, q': QueueType, s': Status)
    ensures Cell(Tally(m, q, s), q', s') == Cell(m, q', s') + Bit(q' == q && s' == s)
  {
  }

  lemma CohortGrows(db: Table, ids: set<JobId>, id: JobId, q: QueueType, s: Status)
    requires id in db && id !in ids
    ensures |Cohort(db, ids + {id}, q, s)|
         == |Cohort(db, ids, q, s)| + Bit(q == db[id].job.queue && s == db[id].status)
  {
    var g := Group(db, q, s);
    if id in g {
      assert (ids + {id}) * g == ids * g + {id};
    } else {
      assert (ids + {id}) * g == ids * g;
    }
  }

  lemma TallyOne(m: Counts, db: Table, ids: set<JobId>, id: JobId)
    requires Tallies(m, db, ids) && id in db && id !in ids
    ensures Tallies(Tally(m, db[id].job.queue, db[id].status), db, ids + {id})
  {
    var q, s := db[id].job.queue, db[id].status;
    var n := Tally(m, q, s);
    forall q', s' ensures Cell(n, q', s') == |Cohort(db, ids + {id}, q', s')| {
      TallyCell(m, q, s, q', s');
      CohortGrows(db, ids, id, q', s');
    }
    forall q', s' | q' in n && s' in n[q'] ensures n[q'][s'] > 0 {
      TallyCell(m, q, s, q', s');
      if q' != q || s' != s {
        assert q' in m && s' in m[q'];
      }
    }
  }

  ghost function Cohort(db: Table, ids: set<JobId>, q: QueueType, s: Status): set<JobId> {
    ids * Group(db, q, s)
  }

  ghost function Group(db: Table, q: QueueType, s: Status): set<JobId> {
    set id | id in db && db[id].job.queue == q && db[id].status == s
  }

  predicate DistinctIds(jobs: seq<Job>) {
    forall i, k :: 0 <= i < k < |jobs| ==> jobs[i].id != jobs[k].id
  }

  lemma InsertMembers(q: seq<Job>, job: Job)
    ensures forall x :: x in Insert(q, job) <==> x in q || x == job
  {
    var i := Slot(q, job);
    assert q == q[..i] + q[i..];
  }

  lemma InsertDistinct(q: seq<Job>, job: Job)
    requires DistinctIds(q) && forall i :: 0 <= i < |q| ==> q[i].id != job.id
    ensures DistinctIds(Insert(q, job))
  {
    var s, r := Slot(q, job), Insert(q, job);
    forall i, k | 0 <= i < k < |r| ensures r[i].id != r[k].id {
      assert r[i] == if i < s then q[i] else if i == s then job else q[i - 1];
      assert r[k] == if k < s then q[k] else if k == s then job else q[k - 1];
    }
  }
}
