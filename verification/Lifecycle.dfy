// The running server as a state machine: worker loops, preempt slots, the
// supervisor, start-up recovery, the sweepers, HTTP handlers, the three queues and the
// jobs table. One event is one mutex region, one channel operation or one SQL statement
// (with the counter increment that follows it). Nondeterminism sits in the events.
module Lifecycle {
  import opened Models
  import opened Ordering
  import opened Tables
  import opened Counting
  import opened Bucket

  datatype Config = Config(workers: nat, fifoCap: nat, rateCap: nat, burst: int, backend: Backend)

  // Where a worker goroutine stands. The job in a program counter is the job the
  // worker is answerable for; it is not always the registered one.
  datatype Pc =
    | Top                     // about to check `done`
    | CheckSlot               // about to look at its preempt slot
    | PollPriority            // a polling pass of Router.DequeueOrWait begins
    | PollRate                // priority queue seen empty in this pass
    | TakeRate                // token seen available
    | Spin(job: Job)          // rate-limited job taken, waiting for a token
    | PollFifo
    | Nap                     // pass found nothing
    | Got(job: Job)           // processJob entered
    | Ready(job: Job)         // SetProcessing done, not yet registered
    | Running(job: Job)       // registered, processor at work
    | Erred(job: Job)         // processor returned an error, ctx.Err not yet read
    | Acking(job: Job)
    | Nacking(job: Job)
    | NackWriting(job: Job, retries: int, maxRetries: int)
    | NackEnqueuing(job: Job)
    | Requeuing(job: Job)
    | RequeueReading(job: Job)
    | RequeueEnqueuing(job: Job)
    | Finished                // deferred cleanup pending
    | Panicked                // deferred cleanup pending, then unwinding
    | Exiting                 // death signal pending
    | Dead                    // loop over

  datatype Ctx = Alive | Cancelled | TimedOut

  // cur and ctx are workers[i].currentJob and the context behind workers[i].cancel;
  // slot is preemptQueue[i].
  datatype Worker = Worker(pc: Pc, cur: Option<Job>, ctx: Ctx, slot: Option<Job>)

  datatype Supervisor = Watching | Holding(id: nat) | Quit | QuitHolding(id: nat)

  datatype Handler =
    | Created(job: Job)           // CreateJob: row saved
    | Enqueuing(job: Job)         // CreateJob: not preempting
    | RetryAsked(id: JobId)       // RetryJob: row seen failed
    | RetryReading(job: Job)      // RetryJob: row reset
    | RetryEnqueuing(job: Job)
    | Replied

  // Start-up recovery and the three sweepers walk a listing row by row: `todo` is what is
  // left of it, as it was listed; `hand` is the job about to be enqueued.
  datatype Lane = ToFifo | ToPriority | ToRate

  datatype Mode = Resting | Active | Ended | Aborted

  datatype Scanner = Scanner(lane: Lane, mode: Mode, todo: seq<Row>, hand: Option<Job>)

  // The scanner that recovers; the others sweep.
  const STARTUP: nat := 0

  // Prometheus counters by queue type; they live and die with the process. `revived`
  // and `erased` are bookkeeping of this model: manual retries and the counts they wipe.
  datatype Metrics = Metrics(
    submitted: map<QueueType, nat>, completed: map<QueueType, nat>, failed: map<QueueType, nat>,
    retried: map<QueueType, nat>, revived: map<QueueType, nat>, erased: map<QueueType, nat>)

  // Facts about the past: jobs with a copy dropped since a scanner last picked them up,
  // cancellations, penalty-free requeues, and per job the nacks and manual retries.
  datatype History = History(
    lost: set<JobId>, preempts: nat, requeues: nat, nacks: map<JobId, nat>, revivals: map<JobId, nat>)

  // The three queues behind the router: FIFO channel, sorted slice, rate-limited channel.
  datatype Queues = Queues(fifo: seq<Job>, prio: seq<Job>, rate: seq<Job>)

  // died is the channel workerDied; stopped says that `done` is closed; refilling ends
  // when main closes the router, before it stops the pool.
  datatype Crew = Crew(died: seq<nat>, sup: Supervisor, stopped: bool, refilling: bool)

  datatype State = State(
    db: Table, q: Queues, tokens: int, ws: seq<Worker>, hs: seq<Handler>,
    scans: seq<Scanner>, crew: Crew, now: Time, met: Metrics, hist: History)

  datatype Verdict = Success | Error | Panic

  datatype Act =
    | Loop | TakeSlot | PopPriority | CheckToken | ReceiveRate(hit: bool) | Spend
    | ReceiveFifo(hit: bool) | Rest(again: bool)
    | SetProcessing(up: bool) | Register | Deadline | Process(verdict: Verdict) | Judge
    | Ack(up: bool) | NackRead(up: bool) | NackWrite(up: bool) | NackEnqueue(fits: bool)
    | RequeueWrite(up: bool) | RequeueRead(up: bool) | RequeueEnqueue(fits: bool)
    | Cleanup | Die

  datatype ScanAct =
    | List(up: bool, rows: seq<Row>)
    | Pick(up: bool)
    | Put(fits: bool)
    | Finish

  datatype Event =
    | Work(i: nat, act: Act)
    | Create(id: JobId, queue: QueueType, priority: int, up: bool)
    | Place(t: nat)
    | Enqueue(t: nat, fits: bool)
    | AskRetry(id: JobId)
    | ResetRetry(t: nat, up: bool)
    | ReadRetry(t: nat, up: bool)
    | EnqueueRetry(t: nat, fits: bool)
    | Scan(k: nat, step: ScanAct)
    | Notice | Restart | Leave      // supervisor
    | EndRefill | Stop | Tick | Advance(d: nat)
    | Crash

  // ---- tokens -------------------------------------------------------------------

  predicate Carries(pc: Pc) {
    pc.Spin? || pc.Got? || pc.Ready? || pc.Running? || pc.Erred? || pc.Acking? || pc.Nacking?
    || pc.NackWriting? || pc.NackEnqueuing? || pc.Requeuing? || pc.RequeueReading? || pc.RequeueEnqueuing?
  }

  predicate Registered(pc: Pc) {
    pc.Running? || pc.Erred? || pc.Acking? || pc.Nacking? || pc.NackWriting? || pc.NackEnqueuing?
    || pc.Requeuing? || pc.RequeueReading? || pc.RequeueEnqueuing? || pc.Finished? || pc.Panicked?
  }

  // Between the look at the preempt slot and the next registration.
  predicate Uncancellable(pc: Pc) {
    pc.PollPriority? || pc.PollRate? || pc.TakeRate? || pc.Spin? || pc.PollFifo? || pc.Nap?
    || pc.Got? || pc.Ready?
  }

  predicate HandlerCarries(h: Handler) {
    h.Created? || h.Enqueuing? || h.RetryReading? || h.RetryEnqueuing?
  }

  function JobIs(id: JobId): Job -> bool { (j: Job) => j.id == id }
  function SlotHas(id: JobId): Worker -> bool { (w: Worker) => w.slot.Some? && w.slot.value.id == id }
  function HandHas(id: JobId): Worker -> bool { (w: Worker) => Carries(w.pc) && w.pc.job.id == id }
  function ScannerHas(id: JobId): Scanner -> bool { (x: Scanner) => x.hand.Some? && x.hand.value.id == id }
  function HandlerHas(id: JobId): Handler -> bool { (h: Handler) => HandlerCarries(h) && h.job.id == id }

  function Queued(q: Queues, id: JobId): nat {
    Count(q.fifo, JobIs(id)) + Count(q.prio, JobIs(id)) + Count(q.rate, JobIs(id))
  }

  function Held(ws: seq<Worker>, id: JobId): nat {
    Count(ws, HandHas(id)) + Count(ws, SlotHas(id))
  }

  // Copies of a job anywhere in the process: queues, workers' hands and preempt slots,
  // handlers' and scanners' hands.
  function Copies(s: State, id: JobId): nat {
    Queued(s.q, id) + Held(s.ws, id) + Count(s.hs, HandlerHas(id)) + Count(s.scans, ScannerHas(id))
  }

  // ---- transitions --------------------------------------------------------------

  const NO_METRICS := Metrics(map[], map[], map[], map[], map[], map[])
  const NO_HISTORY := History({}, 0, 0, map[], map[])

  function AtRest(lane: Lane): Scanner { Scanner(lane, Resting, [], None) }

  // Recovery begins with the FIFO queue; each queue has a sweeper.
  const SCANNERS := [AtRest(ToFifo), AtRest(ToFifo), AtRest(ToPriority), AtRest(ToRate)]

  function LiveIds(db: Table): set<JobId> {
    set id | id in db && !db[id].status.Terminal()
  }

  function Boot(c: Config, db: Table, now: Time, hist: History): State {
    State(db, Queues([], [], []), c.burst,
      seq(c.workers, _ => Worker(Top, None, Alive, None)), [],
      SCANNERS, Crew([], Watching, false, true), now, NO_METRICS, hist)
  }

  ghost predicate Init(c: Config, s: State) {
    s == Boot(c, map[], s.now, NO_HISTORY)
  }

  predicate Eligible(w: Worker) {
    w.cur.Some? && w.cur.value.priority == PRIORITY_NORMAL && w.slot.None?
  }

  // The scan of Pool.Preempt: the first worker whose job may be cancelled.
  function Victim(ws: seq<Worker>): (v: Option<nat>)
    ensures v.Some? ==> v.value < |ws| && Eligible(ws[v.value])
    ensures v.Some? ==> forall j :: 0 <= j < v.value ==> !Eligible(ws[j])
    ensures v.None? ==> forall j :: 0 <= j < |ws| ==> !Eligible(ws[j])
  {
    if ws == [] then None
    else if Eligible(ws[0]) then Some(0)
    else
      var v := Victim(ws[1..]);
      if v.Some? then Some(v.value + 1) else None
  }

  function Cancel(ctx: Ctx): Ctx {
    if ctx.Alive? then Cancelled else ctx
  }

  function NormalizePriority(p: int): int {
    if p < 1 || p > 3 then PRIORITY_NORMAL else p
  }

  predicate HasRoom(c: Config, q: Queues, queue: QueueType) {
    match queue
    case Priority => true
    case RateLimited => |q.rate| < c.rateCap
    case _ => |q.fifo| < c.fifoCap
  }

  function Route(q: Queues, job: Job): Queues {
    match job.queue
    case Priority => q.(prio := Insert(q.prio, job))
    case RateLimited => q.(rate := q.rate + [job])
    case _ => q.(fifo := q.fifo + [job])
  }

  function PushFifo(q: Queues, job: Job): Queues {
    q.(fifo := q.fifo + [job])
  }

  // A job goes to a given queue whatever its own type.
  function Deliver(q: Queues, lane: Lane, job: Job): Queues {
    match lane
    case ToFifo => PushFifo(q, job)
    case ToPriority => q.(prio := Insert(q.prio, job))
    case ToRate => q.(rate := q.rate + [job])
  }

  predicate LaneHasRoom(c: Config, q: Queues, lane: Lane) {
    match lane
    case ToFifo => |q.fifo| < c.fifoCap
    case ToPriority => true
    case ToRate => |q.rate| < c.rateCap
  }

  // The listed rows a scanner acts on.
  function Wants(startup: bool, lane: Lane, now: Time): Row -> bool {
    if startup then (if lane.ToPriority? then PriorityRow() else AnyRow())
    else (if lane.ToPriority? then SweptPriorityRow(now) else SweptRow(now))
  }

  // main serves HTTP only after Router.Recover has returned.
  predicate Serving(s: State) {
    STARTUP < |s.scans| && s.scans[STARTUP].mode.Ended?
  }

  function Lose(h: History, id: JobId): History {
    h.(lost := h.lost + {id})
  }

  predicate ActEnabled(c: Config, s: State, i: nat, act: Act)
    requires i < |s.ws|
  {
    var pc := s.ws[i].pc;
    match act
    case Loop => pc.Top?
    case TakeSlot => pc.CheckSlot?
    case PopPriority => pc.PollPriority?
    case CheckToken => pc.PollRate?
    case ReceiveRate(hit) => pc.TakeRate? && (hit ==> s.q.rate != [])
    case Spend => pc.Spin?
    case ReceiveFifo(hit) => pc.PollFifo? && (hit ==> s.q.fifo != [])
    case Rest(_) => pc.Nap?
    case SetProcessing(_) => pc.Got?
    case Register => pc.Ready?
    case Deadline => Registered(pc) && s.ws[i].ctx.Alive?
    case Process(_) => pc.Running?
    case Judge => pc.Erred?
    case Ack(_) => pc.Acking?
    case NackRead(_) => pc.Nacking?
    case NackWrite(_) => pc.NackWriting?
    case NackEnqueue(fits) => pc.NackEnqueuing? && (fits ==> |s.q.fifo| < c.fifoCap)
    case RequeueWrite(_) => pc.Requeuing?
    case RequeueRead(_) => pc.RequeueReading?
    case RequeueEnqueue(fits) => pc.RequeueEnqueuing? && (fits ==> |s.q.fifo| < c.fifoCap)
    case Cleanup => pc.Finished? || pc.Panicked?
    case Die => pc.Exiting?
  }

  ghost predicate ScanEnabled(c: Config, s: State, k: nat, act: ScanAct)
    requires k < |s.scans|
  {
    var x := s.scans[k];
    match act
    case List(up, rows) => x.mode.Resting? && (up ==> IsListing(s.db, rows))
    case Pick(_) => x.mode.Active? && x.hand.None? && x.todo != []
    case Put(fits) => x.mode.Active? && x.hand.Some? && (fits ==> LaneHasRoom(c, s.q, x.lane))
    case Finish => x.mode.Active? && x.hand.None? && x.todo == []
  }

  ghost predicate Enabled(c: Config, s: State, ev: Event) {
    match ev
    case Work(i, act) => i < |s.ws| && ActEnabled(c, s, i, act)
    case Create(_, _, _, _) => Serving(s)
    case Place(t) => t < |s.hs| && s.hs[t].Created?
    case Enqueue(t, fits) => t < |s.hs| && s.hs[t].Enqueuing? && (fits ==> HasRoom(c, s.q, s.hs[t].job.queue))
    case AskRetry(_) => Serving(s)
    case ResetRetry(t, _) => t < |s.hs| && s.hs[t].RetryAsked?
    case ReadRetry(t, _) => t < |s.hs| && s.hs[t].RetryReading?
    case EnqueueRetry(t, fits) => t < |s.hs| && s.hs[t].RetryEnqueuing? && (fits ==> |s.q.fifo| < c.fifoCap)
    case Scan(k, step) => k < |s.scans| && ScanEnabled(c, s, k, step)
    case Notice => s.crew.sup.Watching? && s.crew.died != []
    case Restart => s.crew.sup.Holding? && s.crew.sup.id < |s.ws|
    case Leave => s.crew.stopped && (s.crew.sup.Watching? || s.crew.sup.Holding?)
    case EndRefill => s.crew.refilling
    case Stop => !s.crew.stopped && !s.crew.refilling
    case Tick => s.crew.refilling
    case Advance(_) => true
    case Crash => true
  }

  datatype Source = NoQueue | FromFifo | FromPriority | FromRate
  datatype Counter = NoCounter | CountCompleted | CountFailed | CountRetried

  // What one step of a worker does to the world: its own new record, the queue it
  // takes a head from, whether it spends a token, the row it writes and the counter
  // it bumps for that row, the job it puts on the FIFO channel, the job it drops,
  // and whether it sends its death signal.
  datatype Effect = Effect(
    w: Worker, take: Source, spend: bool, row: Option<Row>, counter: Counter,
    nacked: bool, requeued: bool, give: Option<Job>, drop: Option<JobId>, die: bool)

  // Only the worker's own record changes.
  function Move(w: Worker): Effect {
    Effect(w, NoQueue, false, None, NoCounter, false, false, None, None, false)
  }

  function GoTo(w: Worker, pc: Pc): Effect {
    Move(w.(pc := pc))
  }

  // A failed statement or enqueue is only logged; the copy in hand is gone.
  function Drop(w: Worker): Effect
    requires Carries(w.pc)
  {
    GoTo(w, Finished).(drop := Some(w.pc.job.id))
  }

  // Taking a job: the preempt slot, then one polling pass over the queues.
  function Poll(s: State, w: Worker, act: Act): Effect
    requires Polling(act) && (act.ReceiveRate? && act.hit ==> s.q.rate != [])
    requires (act.ReceiveFifo? && act.hit ==> s.q.fifo != []) && (act.Spend? ==> w.pc.Spin?)
  {
    match act
    case Loop => GoTo(w, if s.crew.stopped then Exiting else CheckSlot)
    case TakeSlot =>
      Move(w.(slot := None, pc := if w.slot.Some? then Got(w.slot.value) else PollPriority))
    case PopPriority =>
      if s.q.prio == [] then GoTo(w, PollRate) else GoTo(w, Got(s.q.prio[0])).(take := FromPriority)
    case CheckToken => GoTo(w, if s.tokens > 0 then TakeRate else PollFifo)
    case ReceiveRate(hit) =>
      if hit then GoTo(w, Spin(s.q.rate[0])).(take := FromRate) else GoTo(w, PollFifo)
    case Spend => if s.tokens > 0 then GoTo(w, Got(w.pc.job)).(spend := true) else Move(w)
    case ReceiveFifo(hit) =>
      if hit then GoTo(w, Got(s.q.fifo[0])).(take := FromFifo) else GoTo(w, Nap)
    case Rest(again) => GoTo(w, if again then PollPriority else Top)
  }

  // processJob up to the judgement of the processor's result, and the loop's end.
  function Execute(s: State, w: Worker, act: Act): Effect
    requires !Polling(act) && !Finalizing(act)
    requires act.SetProcessing? || act.Register? || act.Process? || act.Judge? ==> Carries(w.pc)
  {
    match act
    case SetProcessing(up) =>
      var e := GoTo(w, Ready(w.pc.job));
      if up && w.pc.job.id in s.db then e.(row := Some(Stamp(s.db[w.pc.job.id], Processing, s.now))) else e
    case Register => Move(w.(pc := Running(w.pc.job), cur := Some(w.pc.job), ctx := Alive))
    case Deadline => Move(w.(ctx := TimedOut))
    case Process(verdict) =>
      (match verdict
       case Success => GoTo(w, Acking(w.pc.job))
       case Error => GoTo(w, Erred(w.pc.job))
       case Panic => GoTo(w, Panicked).(drop := Some(w.pc.job.id)))
    case Judge => GoTo(w, if w.ctx.Cancelled? then Requeuing(w.pc.job) else Nacking(w.pc.job))
    case Cleanup => Move(w.(pc := if w.pc.Panicked? then Exiting else Top, cur := None))
    case Die => GoTo(w, Dead).(die := true)
  }

  // Ack, Nack and Requeue, statement by statement.
  function Finalize(s: State, w: Worker, act: Act): Effect
    requires Finalizing(act) && Carries(w.pc) && (act.NackWrite? ==> w.pc.NackWriting?)
  {
    var job := w.pc.job;
    match act
    case Ack(up) =>
      if up && job.id in s.db then
        GoTo(w, Finished).(row := Some(Stamp(s.db[job.id], Completed, s.now)), counter := CountCompleted)
      else Drop(w)
    case NackRead(up) =>
      if up && job.id in s.db then
        GoTo(w, NackWriting(job, s.db[job.id].retries, s.db[job.id].maxRetries))
      else Drop(w)
    case NackWrite(up) =>
      if up && job.id in s.db then
        var status := NackStatus(w.pc.retries, w.pc.maxRetries);
        var row := NackedRow(s.db[job.id], w.pc.retries, w.pc.maxRetries, s.now);
        if status.Failed? then
          GoTo(w, Finished).(row := Some(row), counter := CountFailed, nacked := true)
        else
          GoTo(w, NackEnqueuing(job)).(row := Some(row), counter := CountRetried, nacked := true)
      else Drop(w)
    case NackEnqueue(fits) => if fits then GoTo(w, Finished).(give := Some(job)) else Drop(w)
    case RequeueWrite(up) =>
      if up then
        var e := GoTo(w, RequeueReading(job)).(requeued := true);
        if job.id in s.db then e.(row := Some(RequeuedRow(s.db[job.id], s.now))) else e
      else Drop(w)
    case RequeueRead(up) => if up && job.id in s.db then GoTo(w, RequeueEnqueuing(job)) else Drop(w)
    case RequeueEnqueue(fits) => if fits then GoTo(w, Finished).(give := Some(job)) else Drop(w)
  }

  predicate Polling(act: Act) {
    act.Loop? || act.TakeSlot? || act.PopPriority? || act.CheckToken? || act.ReceiveRate? || act.Spend?
    || act.ReceiveFifo? || act.Rest?
  }

  predicate Finalizing(act: Act) {
    act.Ack? || act.NackRead? || act.NackWrite? || act.NackEnqueue?
    || act.RequeueWrite? || act.RequeueRead? || act.RequeueEnqueue?
  }

  function Perform(c: Config, s: State, i: nat, act: Act): Effect
    requires i < |s.ws| && ActEnabled(c, s, i, act)
  {
    if Polling(act) then Poll(s, s.ws[i], act)
    else if Finalizing(act) then Finalize(s, s.ws[i], act)
    else Execute(s, s.ws[i], act)
  }

  function Head(q: Queues, take: Source): Option<Job> {
    match take
    case NoQueue => None
    case FromFifo => if q.fifo == [] then None else Some(q.fifo[0])
    case FromPriority => if q.prio == [] then None else Some(q.prio[0])
    case FromRate => if q.rate == [] then None else Some(q.rate[0])
  }

  function Withdraw(q: Queues, take: Source): Queues {
    match take
    case NoQueue => q
    case FromFifo => if q.fifo == [] then q else q.(fifo := q.fifo[1..])
    case FromPriority => if q.prio == [] then q else q.(prio := q.prio[1..])
    case FromRate => if q.rate == [] then q else q.(rate := q.rate[1..])
  }

  function Bump(m: Metrics, counter: Counter, q: QueueType): Metrics {
    match counter
    case NoCounter => m
    case CountCompleted => m.(completed := Add(m.completed, q, 1))
    case CountFailed => m.(failed := Add(m.failed, q, 1))
    case CountRetried => m.(retried := Add(m.retried, q, 1))
  }

  function Record(h: History, e: Effect): History {
    h.(lost := if e.drop.Some? then h.lost + {e.drop.value} else h.lost,
       requeues := h.requeues + Bit(e.requeued),
       nacks := if e.nacked && e.row.Some? then Add(h.nacks, e.row.value.job.id, 1) else h.nacks)
  }

  // The supervisor's channel holds one signal per worker; a signal that does not fit
  // is discarded.
  function Signal(c: Config, crew: Crew, i: nat, die: bool): Crew {
    if die && |crew.died| < c.workers then crew.(died := crew.died + [i]) else crew
  }

  function Apply(c: Config, s: State, i: nat, e: Effect): State
    requires i < |s.ws|
  {
    var q := Withdraw(s.q, e.take);
    State(
      if e.row.Some? then s.db[e.row.value.job.id := e.row.value] else s.db,
      if e.give.Some? then PushFifo(q, e.give.value) else q,
      s.tokens - Bit(e.spend),
      s.ws[i := e.w],
      s.hs,
      s.scans,
      Signal(c, s.crew, i, e.die),
      s.now,
      if e.row.Some? then Bump(s.met, e.counter, e.row.value.job.queue) else s.met,
      Record(s.hist, e))
  }

  // CreateJob and RetryJob.
  function FireHttp(c: Config, s: State, ev: Event): State
    requires Enabled(c, s, ev)
  {
    match ev
    case Create(id, queue, priority, up) =>
      if !up || id in s.db then s
      else
        var job := Job(id, queue, NormalizePriority(priority), s.now);
        s.(db := s.db[id := NewRow(job)], hs := s.hs + [Created(job)],
           met := s.met.(submitted := Add(s.met.submitted, queue, 1)))
    case Place(t) =>
      var job := s.hs[t].job;
      var v := if job.priority == PRIORITY_SUPER_URGENT then Victim(s.ws) else None;
      if v.Some? then
        var w := s.ws[v.value];
        s.(ws := s.ws[v.value := w.(ctx := Cancel(w.ctx), slot := Some(job))],
           hs := s.hs[t := Replied], hist := s.hist.(preempts := s.hist.preempts + 1))
      else s.(hs := s.hs[t := Enqueuing(job)])
    case Enqueue(t, fits) =>
      var job := s.hs[t].job;
      if fits then s.(q := Route(s.q, job), hs := s.hs[t := Replied])
      else s.(hs := s.hs[t := Replied], hist := Lose(s.hist, job.id))
    case AskRetry(id) =>
      if Resettable(s.db, id) then s.(hs := s.hs + [RetryAsked(id)]) else s
    case ResetRetry(t, up) =>
      var id := s.hs[t].id;
      if up && Resettable(s.db, id) then
        var q, wiped := s.db[id].job.queue, if c.backend.Sqlite? && s.db[id].retries > 0 then s.db[id].retries else 0;
        s.(db := ResetForRetry(c.backend, s.db, id, 3, s.now),
           hs := s.hs[t := RetryReading(s.db[id].job)],
           met := s.met.(revived := Add(s.met.revived, q, 1), erased := Add(s.met.erased, q, wiped)),
           hist := s.hist.(revivals := Add(s.hist.revivals, id, 1)))
      else s.(hs := s.hs[t := Replied])
    case ReadRetry(t, up) =>
      var job := s.hs[t].job;
      if up && job.id in s.db then s.(hs := s.hs[t := RetryEnqueuing(job)])
      else s.(hs := s.hs[t := Replied], hist := Lose(s.hist, job.id))
    case EnqueueRetry(t, fits) =>
      var job := s.hs[t].job;
      if fits then s.(q := PushFifo(s.q, job), hs := s.hs[t := Replied])
      else s.(hs := s.hs[t := Replied], hist := Lose(s.hist, job.id))
    case _ => s
  }

  // The row a scanner's next step picks up, if any.
  function Picked(s: State, k: nat, up: bool): Option<Row>
    requires k < |s.scans|
  {
    var x := s.scans[k];
    if x.todo == [] then None
    else
      var row := x.todo[0];
      if Wants(k == STARTUP, x.lane, s.now)(row) && (up || !row.status.Processing?) then Some(row) else None
  }

  function NextLane(x: Scanner): Scanner {
    match x.lane
    case ToFifo => AtRest(ToPriority)
    case ToPriority => AtRest(ToRate)
    case ToRate => x.(mode := Ended)
  }

  // A sweeper skips what fails; recovery gives up, and main with it (a Crash to come).
  function Stumble(k: nat, x: Scanner): Scanner {
    if k == STARTUP then x.(mode := Aborted, todo := [], hand := None) else x.(hand := None)
  }

  // One step of Recover or sweep: list, deal with the next listed row, enqueue it.
  function FireScan(c: Config, s: State, k: nat, act: ScanAct): State
    requires k < |s.scans| && ScanEnabled(c, s, k, act)
  {
    var x := s.scans[k];
    match act
    case List(up, rows) =>
      if up then s.(scans := s.scans[k := x.(mode := Active, todo := rows)])
      else if k == STARTUP then s.(scans := s.scans[k := Stumble(k, x)])
      else s
    case Pick(up) =>
      var rest, picked := x.(todo := x.todo[1..]), Picked(s, k, up);
      if picked.Some? then
        s.(db := ResetListed(s.db, picked.value, s.now),
           scans := s.scans[k := rest.(hand := Some(picked.value.job))],
           hist := s.hist.(lost := s.hist.lost - {picked.value.job.id}))
      else if Wants(k == STARTUP, x.lane, s.now)(x.todo[0]) then s.(scans := s.scans[k := Stumble(k, rest)])
      else s.(scans := s.scans[k := rest])
    case Put(fits) =>
      if fits then s.(q := Deliver(s.q, x.lane, x.hand.value), scans := s.scans[k := x.(hand := None)])
      else s.(scans := s.scans[k := Stumble(k, x)], hist := Lose(s.hist, x.hand.value.id))
    case Finish =>
      s.(scans := s.scans[k := if k == STARTUP then NextLane(x) else AtRest(x.lane)])
  }

  // Supervisor, shutdown, refill ticker, clock and process crash.
  function FireEnv(c: Config, s: State, ev: Event): State
    requires Enabled(c, s, ev)
  {
    match ev
    case Notice => s.(crew := s.crew.(died := s.crew.died[1..], sup := Holding(s.crew.died[0])))
    case Restart => 
      var id := s.crew.sup.id;
      s.(crew := s.crew.(sup := Watching), ws := s.ws[id := s.ws[id].(pc := Top)])
    case Leave => s.(crew := s.crew.(sup := if s.crew.sup.Holding? then QuitHolding(s.crew.sup.id) else Quit))
    case EndRefill => s.(crew := s.crew.(refilling := false))
    case Stop => s.(crew := s.crew.(stopped := true))
    case Tick => s.(tokens := Refill(s.tokens, c.burst))
    case Advance(d) => s.(now := s.now + d)
    case Crash =>
      Boot(c, s.db, s.now, s.hist.(lost := LiveIds(s.db)))
    case _ => s
  }

  function Fire(c: Config, s: State, ev: Event): State
    requires Enabled(c, s, ev)
  {
    match ev
    case Work(i, act) => Apply(c, s, i, Perform(c, s, i, act))
    case Scan(k, step) => FireScan(c, s, k, step)
    case Notice => FireEnv(c, s, ev)
    case Restart => FireEnv(c, s, ev)
    case Leave => FireEnv(c, s, ev)
    case EndRefill => FireEnv(c, s, ev)
    case Stop => FireEnv(c, s, ev)
    case Tick => FireEnv(c, s, ev)
    case Advance(_) => FireEnv(c, s, ev)
    case Crash => FireEnv(c, s, ev)
    case _ => FireHttp(c, s, ev)
  }

  // ---- runs ---------------------------------------------------------------------

  // ss[k] is the state before event k.
  ghost predicate Run(c: Config, ss: seq<State>, evs: seq<Event>) {
    && |ss| == |evs| + 1
    && Init(c, ss[0])
    && forall k :: 0 <= k < |evs| ==>
         Enabled(c, ss[k], evs[k]) && ss[k + 1] == Fire(c, ss[k], evs[k])
  }
}
