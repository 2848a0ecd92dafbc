// Shared vocabulary: pkg/models/job.go and the constants the other packages use.
module Models {

  datatype Option<+T> = None | Some(value: T)

  // UUID strings stand as naturals and instants as integer nanoseconds; only
  // equality of the former and the order of the latter matter.
  type JobId = nat
  type Time = int

  const PRIORITY_NORMAL := 1
  const PRIORITY_SUPER_URGENT := 3

  const SECOND: Time := 1_000_000_000
  const MINUTE: Time := 60 * SECOND

  datatype Status = Pending | Processing | Completed | Failed {
    predicate Terminal() { Completed? || Failed? }
  }

  // `Other` is any string the router does not recognise; it goes to FIFO.
  datatype QueueType = Fifo | Priority | RateLimited | Other(name: string)

  // The part of a job that no operation ever changes.
  datatype Job = Job(id: JobId, queue: QueueType, priority: int, createdAt: Time)

  // One row of the jobs table (payload, job type and error text omitted).
  datatype Row = Row(job: Job, status: Status, retries: int, maxRetries: int,
                     updatedAt: Time, processedAt: Option<Time>)

  type Table = map<JobId, Row>

  // A table row exists for `job` and carries the same immutable fields.
  predicate Known(db: Table, job: Job) {
    job.id in db && db[job.id].job == job
  }

  predicate Live(db: Table, id: JobId) {
    id in db && !db[id].status.Terminal()
  }

  // Every row is filed under its own id.
  predicate Keyed(db: Table) {
    forall id :: id in db ==> db[id].job.id == id
  }
}
