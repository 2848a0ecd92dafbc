// The invariants of the lifecycle machine and their preservation. `Base` holds in every
// run; `Inv` adds what depends on every job having one copy at most, which the scanners
// keep only as long as they pick up orphans.
module Ownership {
  import opened Models
  import opened Ordering
  import opened Tables
  import opened Counting
  import opened Lifecycle

  // The copies a job ought to have: one while it is live and has not been dropped.
  function Due(s: State, id: JobId): nat {
    Bit(Live(s.db, id) && id !in s.hist.lost)
  }

  ghost predicate Backed(s: State) {
    forall id :: Copies(s, id) >= Due(s, id)
  }

  ghost predicate Owned(s: State) {
    forall id :: Copies(s, id) == Due(s, id)
  }

  // What one worker's record says about its own progress.
  predicate WorkerOk(db: Table, w: Worker) {
    && (w.cur.Some? <==> Registered(w.pc))
    && (w.cur.Some? ==> Known(db, w.cur.value))
    && (Carries(w.pc) ==> Known(db, w.pc.job))
    && (Carries(w.pc) && Registered(w.pc) ==> w.cur.value == w.pc.job)
    && (w.slot.Some? ==> Known(db, w.slot.value) && w.slot.value.priority == PRIORITY_SUPER_URGENT)
    && (w.slot.Some? ==> !Uncancellable(w.pc))
    && (Registered(w.pc) && w.ctx.Cancelled? ==> w.slot.Some? && w.cur.value.priority == PRIORITY_NORMAL)
    && (w.pc.Requeuing? ==> w.ctx.Cancelled?)
    && (w.pc.NackWriting? ==> 0 <= w.pc.retries)
  }

  predicate HandlerOk(db: Table, h: Handler) {
    HandlerCarries(h) ==> Known(db, h.job)
  }

  predicate ScannerOk(db: Table, x: Scanner) {
    && (x.hand.Some? ==> Known(db, x.hand.value))
    && (forall i :: 0 <= i < |x.todo| ==> Known(db, x.todo[i].job))
    && (!x.mode.Active? ==> x.hand.None? && x.todo == [])
  }

  predicate AllKnown(db: Table, q: seq<Job>) {
    forall k :: 0 <= k < |q| ==> Known(db, q[k])
  }

  ghost predicate Coherent(s: State) {
    && Keyed(s.db)
    && AllKnown(s.db, s.q.fifo) && AllKnown(s.db, s.q.prio) && AllKnown(s.db, s.q.rate)
    && (forall i :: 0 <= i < |s.ws| ==> WorkerOk(s.db, s.ws[i]))
    && (forall t :: 0 <= t < |s.hs| ==> HandlerOk(s.db, s.hs[t]))
    && (forall k :: 0 <= k < |s.scans| ==> ScannerOk(s.db, s.scans[k]))
  }

  ghost predicate Counted(db: Table) {
    forall id :: id in db ==> 0 <= db[id].retries
  }

  ghost predicate Base(c: Config, s: State) {
    && |s.ws| == c.workers && |s.scans| == |SCANNERS|
    && Backed(s) && Coherent(s) && Counted(s.db) && s.hist.lost <= s.db.Keys
  }

  // A live row has nacks left; a failed one has used its allowance to the last.
  predicate RowBudgeted(row: Row) {
    && 0 <= row.retries
    && if row.status.Failed? then row.retries == row.maxRetries else row.retries < row.maxRetries
  }

  ghost predicate Budgeted(db: Table) {
    forall id :: id in db ==> RowBudgeted(db[id])
  }

  ghost predicate LostAreLive(s: State) {
    forall id :: id in s.hist.lost ==> Live(s.db, id)
  }

  // What a nack in progress has read is still what the row says.
  predicate FreshRead(db: Table, w: Worker) {
    w.pc.NackWriting? ==>
      && w.pc.job.id in db
      && db[w.pc.job.id].retries == w.pc.retries && db[w.pc.job.id].maxRetries == w.pc.maxRetries
  }

  ghost predicate FreshReads(s: State) {
    forall i :: 0 <= i < |s.ws| ==> FreshRead(s.db, s.ws[i])
  }

  ghost predicate Solo(s: State) {
    Owned(s) && Budgeted(s.db) && LostAreLive(s) && FreshReads(s)
  }

  ghost predicate Inv(c: Config, s: State) {
    Base(c, s) && Solo(s)
  }

  // ---- consequences -------------------------------------------------------------

  lemma HandIsLive(s: State, i: nat)
    requires Owned(s) && i < |s.ws| && Carries(s.ws[i].pc)
    ensures Live(s.db, s.ws[i].pc.job.id) && s.ws[i].pc.job.id !in s.hist.lost
  {
    var id := s.ws[i].pc.job.id;
    CountPositive(s.ws, i, HandHas(id));
    assert Copies(s, id) == Due(s, id);
  }

  lemma HandsDiffer(s: State, i: nat, j: nat)
    requires Owned(s) && i < |s.ws| && j < |s.ws| && i != j
    requires Carries(s.ws[i].pc) && Carries(s.ws[j].pc)
    ensures s.ws[i].pc.job.id != s.ws[j].pc.job.id
  {
    var id := s.ws[i].pc.job.id;
    if s.ws[j].pc.job.id == id {
      assert Copies(s, id) == Due(s, id);
      if i < j { CountTwo(s.ws, i, j, HandHas(id)); } else { CountTwo(s.ws, j, i, HandHas(id)); }
    }
  }

  // ---- preservation: copies -----------------------------------------------------

  ghost predicate Single(s: State, id: JobId) {
    Copies(s, id) == Due(s, id) && (id in s.hist.lost ==> Live(s.db, id))
  }

  // A step keeps a job backed, and singly owned if it was.
  ghost predicate Kept(s: State, t: State, id: JobId) {
    && (Copies(s, id) >= Due(s, id) ==> Copies(t, id) >= Due(t, id))
    && (Single(s, id) ==> Copies(t, id) == Due(t, id))
  }

  function HeldBy(w: Worker, id: JobId): nat {
    Bit(Carries(w.pc) && w.pc.job.id == id) + Bit(w.slot.Some? && w.slot.value.id == id)
  }

  // Replacing one worker's record moves copies only through that record.
  lemma HeldUpdate(ws: seq<Worker>, i: nat, w: Worker, id: JobId)
    requires i < |ws|
    ensures Held(ws[i := w], id) + HeldBy(ws[i], id) == Held(ws, id) + HeldBy(w, id)
  {
    CountUpdate(ws, i, w, HandHas(id));
    CountUpdate(ws, i, w, SlotHas(id));
  }

  lemma PushCopies(q: Queues, job: Job, id: JobId)
    ensures Queued(PushFifo(q, job), id) == Queued(q, id) + Bit(job.id == id)
  {
    CountSnoc(q.fifo, job, JobIs(id));
  }

  lemma DeliverCopies(q: Queues, lane: Lane, job: Job, id: JobId)
    ensures Queued(Deliver(q, lane, job), id) == Queued(q, id) + Bit(job.id == id)
  {
    match lane {
      case ToPriority => CountInsert(q.prio, Slot(q.prio, job), job, JobIs(id));
      case ToRate => CountSnoc(q.rate, job, JobIs(id));
      case ToFifo => CountSnoc(q.fifo, job, JobIs(id));
    }
  }

  function LaneOf(queue: QueueType): Lane {
    match queue
    case Priority => ToPriority
    case RateLimited => ToRate
    case _ => ToFifo
  }

  lemma RouteCopies(q: Queues, job: Job, id: JobId)
    ensures Queued(Route(q, job), id) == Queued(q, id) + Bit(job.id == id)
  {
    DeliverCopies(q, LaneOf(job.queue), job, id);
    assert Route(q, job) == Deliver(q, LaneOf(job.queue), job);
  }

  lemma WithdrawCopies(q: Queues, take: Source, id: JobId)
    ensures Queued(Withdraw(q, take), id) + Bit(Has(Head(q, take), id)) == Queued(q, id)
  {
    match take {
      case NoQueue =>
      case FromFifo => if q.fifo != [] { CountHead(q.fifo, id); }
      case FromPriority => if q.prio != [] { CountHead(q.prio, id); }
      case FromRate => if q.rate != [] { CountHead(q.rate, id); }
    }
  }

  lemma CountHead(q: seq<Job>, id: JobId)
    requires q != []
    ensures Count(q, JobIs(id)) == Bit(q[0].id == id) + Count(q[1..], JobIs(id))
  {
  }

  predicate Has(o: Option<Job>, id: JobId) {
    o.Some? && o.value.id == id
  }

  predicate Ends(e: Effect, id: JobId) {
    || e.drop == Some(id)
    || (e.row.Some? && e.row.value.job.id == id && e.row.value.status.Terminal())
  }

  // A worker step neither makes nor loses copies: what it ends up holding, gives back
  // and retires is what it held and took.
  ghost predicate Balanced(w: Worker, e: Effect, head: Option<Job>) {
    && (forall id :: HeldBy(e.w, id) + Bit(Has(e.give, id)) + Bit(Ends(e, id)) == HeldBy(w, id) + Bit(Has(head, id)))
    && (e.row.Some? ==> Carries(w.pc) && e.row.value.job == w.pc.job)
    && (e.drop.Some? ==> Carries(w.pc) && e.drop.value == w.pc.job.id && e.row.None?)
  }

  lemma PollBalanced(s: State, w: Worker, act: Act)
    requires Polling(act) && (act.ReceiveRate? && act.hit ==> s.q.rate != [])
    requires (act.ReceiveFifo? && act.hit ==> s.q.fifo != []) && (act.Spend? ==> w.pc.Spin?)
    requires act.Spend? || !Carries(w.pc)
    ensures Balanced(w, Poll(s, w, act), Head(s.q, Poll(s, w, act).take))
  {
  }

  lemma ExecuteBalanced(s: State, w: Worker, act: Act)
    requires !Polling(act) && !Finalizing(act)
    requires (act.SetProcessing? || act.Register? || act.Process? || act.Judge?) ==> Carries(w.pc)
    requires act.Cleanup? || act.Die? ==> !Carries(w.pc)
    requires Carries(w.pc) ==> Known(s.db, w.pc.job)
    ensures Balanced(w, Execute(s, w, act), None) && Execute(s, w, act).take.NoQueue?
  {
  }

  lemma FinalizeBalanced(s: State, w: Worker, act: Act)
    requires Finalizing(act) && Carries(w.pc) && (act.NackWrite? ==> w.pc.NackWriting?)
    requires Known(s.db, w.pc.job)
    ensures Balanced(w, Finalize(s, w, act), None) && Finalize(s, w, act).take.NoQueue?
  {
  }

  lemma WorkDelta(c: Config, s: State, i: nat, e: Effect, id: JobId)
    requires i < |s.ws| && Balanced(s.ws[i], e, Head(s.q, e.take))
    ensures Copies(Apply(c, s, i, e), id) + Bit(Ends(e, id)) == Copies(s, id)
    ensures Carries(s.ws[i].pc) && s.ws[i].pc.job.id == id ==> Copies(s, id) >= 1
  {
    HeldUpdate(s.ws, i, e.w, id);
    WithdrawCopies(s.q, e.take, id);
    if e.give.Some? {
      PushCopies(Withdraw(s.q, e.take), e.give.value, id);
    }
    if Carries(s.ws[i].pc) && s.ws[i].pc.job.id == id {
      CountPositive(s.ws, i, HandHas(id));
    }
  }

  lemma WorkCopies(c: Config, s: State, i: nat, e: Effect, id: JobId)
    requires i < |s.ws| && Balanced(s.ws[i], e, Head(s.q, e.take))
    ensures Kept(s, Apply(c, s, i, e), id)
  {
    WorkDelta(c, s, i, e, id);
    if Ends(e, id) {
      assert Carries(s.ws[i].pc);
    }
  }

  lemma PlaceCopies(c: Config, s: State, ev: Event, id: JobId)
    requires Enabled(c, s, ev) && ev.Place?
    ensures Kept(s, FireHttp(c, s, ev), id)
  {
    var t := FireHttp(c, s, ev);
    CountUpdate(s.hs, ev.t, t.hs[ev.t], HandlerHas(id));
    if t.ws != s.ws {
      var v := Victim(s.ws).value;
      HeldUpdate(s.ws, v, t.ws[v], id);
    }
  }

  lemma EnqueueCopies(c: Config, s: State, ev: Event, id: JobId)
    requires Enabled(c, s, ev) && (ev.Enqueue? || ev.EnqueueRetry?)
    ensures Kept(s, FireHttp(c, s, ev), id)
  {
    var t := FireHttp(c, s, ev);
    CountUpdate(s.hs, ev.t, t.hs[ev.t], HandlerHas(id));
    if s.hs[ev.t].job.id == id { CountPositive(s.hs, ev.t, HandlerHas(id)); }
    PushCopies(s.q, s.hs[ev.t].job, id);
    RouteCopies(s.q, s.hs[ev.t].job, id);
  }

  lemma ResetCopies(c: Config, s: State, t: nat, up: bool, id: JobId)
    requires Enabled(c, s, ResetRetry(t, up)) && Keyed(s.db)
    ensures Kept(s, FireHttp(c, s, ResetRetry(t, up)), id)
  {
    var u := FireHttp(c, s, ResetRetry(t, up));
    CountUpdate(s.hs, t, u.hs[t], HandlerHas(id));
  }

  lemma ReadCopies(c: Config, s: State, t: nat, up: bool, id: JobId)
    requires Enabled(c, s, ReadRetry(t, up))
    ensures Kept(s, FireHttp(c, s, ReadRetry(t, up)), id)
  {
    var u := FireHttp(c, s, ReadRetry(t, up));
    CountUpdate(s.hs, t, u.hs[t], HandlerHas(id));
    if s.hs[t].job.id == id { CountPositive(s.hs, t, HandlerHas(id)); }
  }

  lemma ArriveCopies(c: Config, s: State, ev: Event, id: JobId)
    requires Enabled(c, s, ev) && (ev.Create? || ev.AskRetry?)
    requires s.hist.lost <= s.db.Keys
    ensures Kept(s, FireHttp(c, s, ev), id)
  {
    var t := FireHttp(c, s, ev);
    if |t.hs| > |s.hs| {
      CountSnoc(s.hs, t.hs[|s.hs|], HandlerHas(id));
    }
  }

  // ---- preservation: coherence ---------------------------------------------------

  function AfterRow(db: Table, e: Effect): Table {
    if e.row.Some? then db[e.row.value.job.id := e.row.value] else db
  }

  // A step leaves its worker's record and the row it writes in order.
  predicate Sound(db: Table, e: Effect) {
    && WorkerOk(AfterRow(db, e), e.w)
    && (e.give.Some? ==> Known(db, e.give.value))
    && (e.row.Some? ==> Known(db, e.row.value.job) && 0 <= e.row.value.retries)
  }

  lemma PollSound(s: State, w: Worker, act: Act)
    requires Polling(act) && (act.ReceiveRate? && act.hit ==> s.q.rate != [])
    requires (act.ReceiveFifo? && act.hit ==> s.q.fifo != []) && (act.Spend? ==> w.pc.Spin?)
    requires !Registered(w.pc) && (act.Loop? || act.TakeSlot? || w.slot.None?)
    requires WorkerOk(s.db, w)
    requires AllKnown(s.db, s.q.fifo) && AllKnown(s.db, s.q.prio) && AllKnown(s.db, s.q.rate)
    ensures Sound(s.db, Poll(s, w, act))
  {
  }

  lemma ExecuteSound(s: State, w: Worker, act: Act)
    requires !Polling(act) && !Finalizing(act)
    requires (act.SetProcessing? ==> w.pc.Got?) && (act.Register? ==> w.pc.Ready?)
    requires (act.Process? ==> w.pc.Running?) && (act.Judge? ==> w.pc.Erred?)
    requires (act.Deadline? ==> w.ctx.Alive?) && (act.Cleanup? ==> w.pc.Finished? || w.pc.Panicked?)
    requires act.Die? ==> w.pc.Exiting?
    requires WorkerOk(s.db, w) && (Carries(w.pc) ==> 0 <= s.db[w.pc.job.id].retries)
    ensures Sound(s.db, Execute(s, w, act))
  {
  }

  lemma FinalizeSound(s: State, w: Worker, act: Act)
    requires Finalizing(act) && Carries(w.pc) && Registered(w.pc)
    requires (act.NackWrite? ==> w.pc.NackWriting?)
    requires WorkerOk(s.db, w) && 0 <= s.db[w.pc.job.id].retries
    ensures Sound(s.db, Finalize(s, w, act))
  {
  }

  // A new row for a known job leaves every record as good as it was.
  lemma RowCoherent(s: State, row: Row)
    requires Coherent(s) && (row.job.id in s.db ==> Known(s.db, row.job))
    ensures Coherent(s.(db := s.db[row.job.id := row]))
  {
    var t := s.(db := s.db[row.job.id := row]);
    forall i | 0 <= i < |s.ws| ensures WorkerOk(t.db, s.ws[i]) { assert WorkerOk(s.db, s.ws[i]); }
    forall i | 0 <= i < |s.hs| ensures HandlerOk(t.db, s.hs[i]) { assert HandlerOk(s.db, s.hs[i]); }
    forall k | 0 <= k < |s.scans| ensures ScannerOk(t.db, s.scans[k]) { assert ScannerOk(s.db, s.scans[k]); }
  }

  lemma QueuesKnown(db: Table, q: Queues, take: Source, give: Option<Job>)
    requires AllKnown(db, q.fifo) && AllKnown(db, q.prio) && AllKnown(db, q.rate)
    requires give.Some? ==> Known(db, give.value)
    ensures var r := if give.Some? then PushFifo(Withdraw(q, take), give.value) else Withdraw(q, take);
            AllKnown(db, r.fifo) && AllKnown(db, r.prio) && AllKnown(db, r.rate)
  {
  }

  lemma WorkCoherent(c: Config, s: State, i: nat, e: Effect)
    requires Coherent(s) && Counted(s.db) && i < |s.ws| && Sound(s.db, e)
    ensures Coherent(Apply(c, s, i, e)) && Counted(Apply(c, s, i, e).db)
  {
    var t := Apply(c, s, i, e);
    if e.row.Some? { RowCoherent(s, e.row.value); }
    var u := s.(db := AfterRow(s.db, e));
    assert Coherent(u);
    QueuesKnown(u.db, s.q, e.take, e.give);
    forall j | 0 <= j < |t.ws| ensures WorkerOk(t.db, t.ws[j]) {
      assert j != i ==> WorkerOk(u.db, u.ws[j]);
    }
  }

  ghost predicate Legal(s: State, w: Worker, e: Effect) {
    Balanced(w, e, Head(s.q, e.take)) && Sound(s.db, e)
  }

  lemma PollLegal(c: Config, s: State, i: nat, act: Act)
    requires Base(c, s) && i < |s.ws| && ActEnabled(c, s, i, act) && Polling(act)
    ensures Legal(s, s.ws[i], Perform(c, s, i, act))
  {
    PollBalanced(s, s.ws[i], act);
    PollSound(s, s.ws[i], act);
  }

  lemma FinalizeLegal(c: Config, s: State, i: nat, act: Act)
    requires Base(c, s) && i < |s.ws| && ActEnabled(c, s, i, act) && Finalizing(act)
    ensures Legal(s, s.ws[i], Perform(c, s, i, act))
  {
    assert WorkerOk(s.db, s.ws[i]);
    FinalizeBalanced(s, s.ws[i], act);
    FinalizeSound(s, s.ws[i], act);
  }

  lemma PerformLegal(c: Config, s: State, i: nat, act: Act)
    requires Base(c, s) && i < |s.ws| && ActEnabled(c, s, i, act)
    ensures Legal(s, s.ws[i], Perform(c, s, i, act))
  {
    if Polling(act) {
      PollLegal(c, s, i, act);
    } else if Finalizing(act) {
      FinalizeLegal(c, s, i, act);
    } else {
      assert WorkerOk(s.db, s.ws[i]);
      ExecuteBalanced(s, s.ws[i], act);
      ExecuteSound(s, s.ws[i], act);
    }
  }

  lemma WorkBase(c: Config, s: State, i: nat, e: Effect)
    requires Base(c, s) && i < |s.ws| && Legal(s, s.ws[i], e)
    ensures Base(c, Apply(c, s, i, e))
  {
    var t := Apply(c, s, i, e);
    forall id ensures Copies(t, id) >= Due(t, id) { WorkCopies(c, s, i, e, id); }
    WorkCoherent(c, s, i, e);
    assert WorkerOk(s.db, s.ws[i]);
  }

  // ---- preservation: what rests on single ownership --------------------------------

  // What a step writes respects the budget, and its own nack reads what is there.
  predicate Thrifty(db: Table, e: Effect) {
    && FreshRead(AfterRow(db, e), e.w)
    && (e.row.Some? ==> Known(db, e.row.value.job) && RowBudgeted(e.row.value))
  }

  lemma FinalizeThrifty(s: State, w: Worker, act: Act)
    requires Finalizing(act) && Carries(w.pc) && (act.NackWrite? ==> w.pc.NackWriting?)
    requires Known(s.db, w.pc.job) && FreshRead(s.db, w)
    requires Live(s.db, w.pc.job.id) && RowBudgeted(s.db[w.pc.job.id])
    ensures Thrifty(s.db, Finalize(s, w, act))
  {
  }

  lemma ExecuteThrifty(s: State, w: Worker, act: Act)
    requires !Polling(act) && !Finalizing(act)
    requires act.SetProcessing? || act.Register? || act.Process? || act.Judge? ==> Carries(w.pc)
    requires FreshRead(s.db, w)
    requires Carries(w.pc) ==> Known(s.db, w.pc.job) && Live(s.db, w.pc.job.id) && RowBudgeted(s.db[w.pc.job.id])
    ensures Thrifty(s.db, Execute(s, w, act))
  {
  }

  lemma PollThrifty(s: State, w: Worker, act: Act)
    requires Polling(act) && (act.ReceiveRate? && act.hit ==> s.q.rate != [])
    requires (act.ReceiveFifo? && act.hit ==> s.q.fifo != []) && (act.Spend? ==> w.pc.Spin?)
    requires FreshRead(s.db, w)
    ensures Thrifty(s.db, Poll(s, w, act))
  {
  }

  lemma PerformThrifty(c: Config, s: State, i: nat, act: Act)
    requires Inv(c, s) && i < |s.ws| && ActEnabled(c, s, i, act)
    ensures Thrifty(s.db, Perform(c, s, i, act))
  {
    var w := s.ws[i];
    assert WorkerOk(s.db, w) && FreshRead(s.db, w);
    if Carries(w.pc) { HandIsLive(s, i); }
    if Polling(act) {
      PollThrifty(s, w, act);
    } else if Finalizing(act) {
      FinalizeThrifty(s, w, act);
    } else {
      ExecuteThrifty(s, w, act);
    }
  }

  // A row of a job that worker w does not carry is none of its concern.
  lemma FreshElsewhere(db: Table, w: Worker, row: Row)
    requires FreshRead(db, w)
    requires Carries(w.pc) ==> w.pc.job.id != row.job.id
    ensures FreshRead(db[row.job.id := row], w)
  {
  }

  lemma WorkFresh(c: Config, s: State, i: nat, e: Effect)
    requires Inv(c, s) && i < |s.ws| && Legal(s, s.ws[i], e) && Thrifty(s.db, e)
    ensures FreshReads(Apply(c, s, i, e))
  {
    var t := Apply(c, s, i, e);
    forall j | 0 <= j < |t.ws| ensures FreshRead(t.db, t.ws[j]) {
      if j != i {
        assert FreshRead(s.db, s.ws[j]);
        if e.row.Some? {
          if Carries(s.ws[j].pc) { HandsDiffer(s, i, j); }
          FreshElsewhere(s.db, s.ws[j], e.row.value);
        }
      }
    }
  }

  lemma WorkSolo(c: Config, s: State, i: nat, e: Effect)
    requires Inv(c, s) && i < |s.ws| && Legal(s, s.ws[i], e) && Thrifty(s.db, e)
    ensures Solo(Apply(c, s, i, e))
  {
    var t := Apply(c, s, i, e);
    forall id ensures Copies(t, id) == Due(t, id) { WorkCopies(c, s, i, e, id); }
    WorkFresh(c, s, i, e);
    if Carries(s.ws[i].pc) { HandIsLive(s, i); }
  }

  // ---- HTTP -------------------------------------------------------------------------

  predicate Http(ev: Event) {
    ev.Create? || ev.Place? || ev.Enqueue? || ev.AskRetry? || ev.ResetRetry? || ev.ReadRetry? || ev.EnqueueRetry?
  }

  lemma HttpCopies(c: Config, s: State, ev: Event, id: JobId)
    requires Base(c, s) && Enabled(c, s, ev) && Http(ev)
    ensures Kept(s, FireHttp(c, s, ev), id)
  {
    match ev {
      case Create(_, _, _, _) => ArriveCopies(c, s, ev, id);
      case AskRetry(_) => ArriveCopies(c, s, ev, id);
      case Place(_) => PlaceCopies(c, s, ev, id);
      case ResetRetry(t, up) => ResetCopies(c, s, t, up, id);
      case ReadRetry(t, up) => ReadCopies(c, s, t, up, id);
      case _ => EnqueueCopies(c, s, ev, id);
    }
  }

  lemma DeliverKnown(db: Table, q: Queues, lane: Lane, job: Job)
    requires AllKnown(db, q.fifo) && AllKnown(db, q.prio) && AllKnown(db, q.rate) && Known(db, job)
    ensures var r := Deliver(q, lane, job); AllKnown(db, r.fifo) && AllKnown(db, r.prio) && AllKnown(db, r.rate)
  {
  }

  lemma RouteKnown(db: Table, q: Queues, job: Job)
    requires AllKnown(db, q.fifo) && AllKnown(db, q.prio) && AllKnown(db, q.rate) && Known(db, job)
    ensures var r := Route(q, job); AllKnown(db, r.fifo) && AllKnown(db, r.prio) && AllKnown(db, r.rate)
  {
    DeliverKnown(db, q, LaneOf(job.queue), job);
    assert Route(q, job) == Deliver(q, LaneOf(job.queue), job);
  }

  // A handler's step keeps the queues, the workers and the scanners coherent with the
  // table it leaves behind.
  lemma SavedCoherent(c: Config, s: State, ev: Event)
    requires Base(c, s) && Enabled(c, s, ev) && (ev.Create? || ev.ResetRetry?)
    ensures Coherent(FireHttp(c, s, ev)) && Counted(FireHttp(c, s, ev).db)
  {
    var t := FireHttp(c, s, ev);
    if t.db != s.db {
      var id := if ev.Create? then ev.id else s.hs[ev.t].id;
      RowCoherent(s, t.db[id]);
      var u := s.(db := s.db[id := t.db[id]]);
      assert Coherent(u) && t.db == u.db && t.q == u.q && t.ws == u.ws && t.scans == u.scans;
      forall j | 0 <= j < |t.hs| ensures HandlerOk(t.db, t.hs[j]) {
        assert j < |u.hs| ==> HandlerOk(u.db, u.hs[j]);
      }
    }
  }

  lemma HandledCoherent(c: Config, s: State, ev: Event)
    requires Base(c, s) && Enabled(c, s, ev) && Http(ev) && !ev.Create? && !ev.ResetRetry? && !ev.Place?
    ensures Coherent(FireHttp(c, s, ev)) && FireHttp(c, s, ev).db == s.db
  {
    if !ev.AskRetry? {
      assert HandlerOk(s.db, s.hs[ev.t]);
      RouteKnown(s.db, s.q, s.hs[ev.t].job);
    }
  }

  lemma PlaceCoherent(c: Config, s: State, ev: Event)
    requires Base(c, s) && Enabled(c, s, ev) && ev.Place?
    ensures Coherent(FireHttp(c, s, ev)) && FireHttp(c, s, ev).db == s.db
  {
    assert HandlerOk(s.db, s.hs[ev.t]);
  }

  lemma HttpBase(c: Config, s: State, ev: Event)
    requires Base(c, s) && Enabled(c, s, ev) && Http(ev)
    ensures Base(c, FireHttp(c, s, ev))
  {
    var t := FireHttp(c, s, ev);
    forall id ensures Copies(t, id) >= Due(t, id) { HttpCopies(c, s, ev, id); }
    if ev.Create? || ev.ResetRetry? { SavedCoherent(c, s, ev); }
    else if ev.Place? { PlaceCoherent(c, s, ev); }
    else { HandledCoherent(c, s, ev); }
    HttpLost(c, s, ev);
  }

  lemma HttpLost(c: Config, s: State, ev: Event)
    requires Base(c, s) && Enabled(c, s, ev) && Http(ev)
    ensures FireHttp(c, s, ev).hist.lost <= FireHttp(c, s, ev).db.Keys
    ensures forall id :: id in FireHttp(c, s, ev).hist.lost && id !in s.hist.lost ==>
      !ev.Create? && !ev.AskRetry? && HandlerCarries(s.hs[ev.t]) && s.hs[ev.t].job.id == id
  {
    if !ev.Create? && !ev.AskRetry? { assert HandlerOk(s.db, s.hs[ev.t]); }
  }

  lemma HandlerIsLive(s: State, t: nat)
    requires Owned(s) && t < |s.hs| && HandlerCarries(s.hs[t])
    ensures Live(s.db, s.hs[t].job.id) && s.hs[t].job.id !in s.hist.lost
  {
    var id := s.hs[t].job.id;
    CountPositive(s.hs, t, HandlerHas(id));
    assert Copies(s, id) == Due(s, id);
  }

  lemma HttpSolo(c: Config, s: State, ev: Event)
    requires Inv(c, s) && Enabled(c, s, ev) && Http(ev)
    ensures Solo(FireHttp(c, s, ev))
  {
    var t := FireHttp(c, s, ev);
    forall id ensures Copies(t, id) == Due(t, id) { HttpCopies(c, s, ev, id); }
    HttpLost(c, s, ev);
    HttpRows(c, s, ev);
    HttpBudgeted(c, s, ev);
    if !ev.Create? && !ev.AskRetry? && HandlerCarries(s.hs[ev.t]) { HandlerIsLive(s, ev.t); }
    HttpFresh(c, s, ev);
  }

  // Handlers write a row only to create it or to revive a failed one.
  lemma HttpRows(c: Config, s: State, ev: Event)
    requires Enabled(c, s, ev) && Http(ev)
    ensures forall id :: Live(s.db, id) ==> Live(FireHttp(c, s, ev).db, id) && FireHttp(c, s, ev).db[id] == s.db[id]
  {
  }

  lemma HttpBudgeted(c: Config, s: State, ev: Event)
    requires Inv(c, s) && Enabled(c, s, ev) && Http(ev)
    ensures Budgeted(FireHttp(c, s, ev).db)
  {
  }

  lemma HttpFresh(c: Config, s: State, ev: Event)
    requires Inv(c, s) && Enabled(c, s, ev) && Http(ev)
    ensures FreshReads(FireHttp(c, s, ev))
  {
    var t := FireHttp(c, s, ev);
    HttpRows(c, s, ev);
    forall i | 0 <= i < |t.ws| ensures FreshRead(t.db, t.ws[i]) {
      assert t.ws[i].pc == s.ws[i].pc && FreshRead(s.db, s.ws[i]);
      if Carries(s.ws[i].pc) { HandIsLive(s, i); }
    }
  }

  // ---- supervisor, shutdown, ticker, clock and crash ---------------------------------

  predicate Env(ev: Event) {
    ev.Notice? || ev.Restart? || ev.Leave? || ev.EndRefill? || ev.Stop? || ev.Tick? || ev.Advance? || ev.Crash?
  }

  // A freshly started process holds no job at all.
  lemma BootCopies(c: Config, db: Table, now: Time, hist: History, id: JobId)
    ensures Copies(Boot(c, db, now, hist), id) == 0
  {
    var s := Boot(c, db, now, hist);
    CountNone(s.ws, HandHas(id));
    CountNone(s.ws, SlotHas(id));
    CountNone(s.scans, ScannerHas(id));
  }

  lemma RestartCopies(c: Config, s: State, id: JobId)
    requires Enabled(c, s, Restart) && s.ws[s.crew.sup.id].pc.Dead?
    ensures Copies(FireEnv(c, s, Restart), id) == Copies(s, id)
  {
    HeldUpdate(s.ws, s.crew.sup.id, s.ws[s.crew.sup.id].(pc := Top), id);
  }

  lemma EnvCopies(c: Config, s: State, ev: Event, id: JobId)
    requires Enabled(c, s, ev) && Env(ev)
    requires ev.Restart? ==> s.ws[s.crew.sup.id].pc.Dead?
    ensures Kept(s, FireEnv(c, s, ev), id)
  {
    var t := FireEnv(c, s, ev);
    if ev.Restart? {
      RestartCopies(c, s, id);
    } else if ev.Crash? {
      BootCopies(c, t.db, t.now, t.hist, id);
    }
  }

  lemma EnvBase(c: Config, s: State, ev: Event)
    requires Base(c, s) && Enabled(c, s, ev) && Env(ev)
    requires ev.Restart? ==> s.ws[s.crew.sup.id].pc.Dead?
    ensures Base(c, FireEnv(c, s, ev))
  {
    var t := FireEnv(c, s, ev);
    forall id ensures Copies(t, id) >= Due(t, id) { EnvCopies(c, s, ev, id); }
  }

  lemma EnvSolo(c: Config, s: State, ev: Event)
    requires Inv(c, s) && Enabled(c, s, ev) && Env(ev)
    requires ev.Restart? ==> s.ws[s.crew.sup.id].pc.Dead?
    ensures Solo(FireEnv(c, s, ev))
  {
    var t := FireEnv(c, s, ev);
    forall id ensures Copies(t, id) == Due(t, id) { EnvCopies(c, s, ev, id); }
  }

  // ---- scanners ----------------------------------------------------------------------

  // The job a scanner's step picks up and makes a new copy of.
  function PickedBy(s: State, ev: Event): Option<Row>
    requires ev.Scan? ==> ev.k < |s.scans|
  {
    if ev.Scan? && ev.step.Pick? then Picked(s, ev.k, ev.step.up) else None
  }

  // Live, and nowhere to be found.
  predicate Orphan(s: State, id: JobId) {
    Live(s.db, id) && Copies(s, id) == 0
  }

  // A scanner's step is harmless if what it picks up, if anything, is an orphan.
  ghost predicate Harmless(c: Config, s: State, ev: Event)
    requires Enabled(c, s, ev)
  {
    PickedBy(s, ev).Some? ==> Orphan(s, PickedBy(s, ev).value.job.id)
  }

  lemma PickCopies(c: Config, s: State, k: nat, up: bool, id: JobId)
    requires Base(c, s) && Enabled(c, s, Scan(k, Pick(up)))
    ensures var p := Picked(s, k, up);
            Copies(FireScan(c, s, k, Pick(up)), id) == Copies(s, id) + Bit(p.Some? && p.value.job.id == id)
  {
    var t := FireScan(c, s, k, Pick(up));
    CountUpdate(s.scans, k, t.scans[k], ScannerHas(id));
  }

  lemma PickEffect(c: Config, s: State, k: nat, up: bool)
    requires Base(c, s) && Enabled(c, s, Scan(k, Pick(up)))
    ensures var t, p := FireScan(c, s, k, Pick(up)), Picked(s, k, up);
            && (p.None? ==> t.db == s.db && t.hist.lost == s.hist.lost)
            && (p.Some? ==> t.db == ResetListed(s.db, p.value, s.now) && t.hist.lost == s.hist.lost - {p.value.job.id})
            && (p.Some? ==> Known(s.db, p.value.job))
  {
    assert ScannerOk(s.db, s.scans[k]);
  }

  lemma PutCopies(c: Config, s: State, k: nat, fits: bool, id: JobId)
    requires Base(c, s) && Enabled(c, s, Scan(k, Put(fits)))
    ensures Kept(s, FireScan(c, s, k, Put(fits)), id)
  {
    var t, x := FireScan(c, s, k, Put(fits)), s.scans[k];
    CountUpdate(s.scans, k, t.scans[k], ScannerHas(id));
    if x.hand.value.id == id { CountPositive(s.scans, k, ScannerHas(id)); }
    DeliverCopies(s.q, x.lane, x.hand.value, id);
  }

  lemma WalkCopies(c: Config, s: State, k: nat, act: ScanAct, id: JobId)
    requires Base(c, s) && Enabled(c, s, Scan(k, act)) && (act.List? || act.Finish?)
    ensures Kept(s, FireScan(c, s, k, act), id)
  {
    var t := FireScan(c, s, k, act);
    assert ScannerOk(s.db, s.scans[k]);
    CountUpdate(s.scans, k, t.scans[k], ScannerHas(id));
  }

  // A pick makes one copy, which is the only one exactly when the job was an orphan.
  lemma PickKept(c: Config, s: State, k: nat, up: bool, id: JobId)
    requires Base(c, s) && Enabled(c, s, Scan(k, Pick(up)))
    ensures var t, p := FireScan(c, s, k, Pick(up)), Picked(s, k, up);
            && (Copies(s, id) >= Due(s, id) ==> Copies(t, id) >= Due(t, id))
            && (Single(s, id) && (p.Some? ==> Orphan(s, p.value.job.id)) ==> Copies(t, id) == Due(t, id))
  {
    PickCopies(c, s, k, up, id);
    PickEffect(c, s, k, up);
  }

  lemma ScanCopies(c: Config, s: State, ev: Event, id: JobId)
    requires Base(c, s) && Enabled(c, s, ev) && ev.Scan?
    ensures var t := FireScan(c, s, ev.k, ev.step);
            && (Copies(s, id) >= Due(s, id) ==> Copies(t, id) >= Due(t, id))
            && (Single(s, id) && Harmless(c, s, ev) ==> Copies(t, id) == Due(t, id))
  {
    match ev.step {
      case Pick(up) => PickKept(c, s, ev.k, up, id);
      case Put(fits) => PutCopies(c, s, ev.k, fits, id);
      case _ => WalkCopies(c, s, ev.k, ev.step, id);
    }
  }

  lemma ListedKnown(db: Table, rows: seq<Row>)
    requires Keyed(db) && IsListing(db, rows)
    ensures forall i :: 0 <= i < |rows| ==> Known(db, rows[i].job)
  {
  }

  lemma ScannerStepOk(c: Config, s: State, k: nat, act: ScanAct)
    requires Base(c, s) && Enabled(c, s, Scan(k, act))
    ensures ScannerOk(s.db, FireScan(c, s, k, act).scans[k])
  {
    assert ScannerOk(s.db, s.scans[k]);
    if act.List? && act.up { ListedKnown(s.db, act.rows); }
  }

  lemma ScanCoherent(c: Config, s: State, k: nat, act: ScanAct)
    requires Base(c, s) && Enabled(c, s, Scan(k, act))
    ensures Coherent(FireScan(c, s, k, act)) && Counted(FireScan(c, s, k, act).db)
    ensures FireScan(c, s, k, act).db.Keys == s.db.Keys
  {
    var t, x := FireScan(c, s, k, act), s.scans[k];
    ScannerStepOk(c, s, k, act);
    assert ScannerOk(s.db, x);
    if act.Put? { DeliverKnown(s.db, s.q, x.lane, x.hand.value); }
    var u := s.(q := t.q, scans := t.scans);
    assert Coherent(u);
    if t.db != s.db {
      var id := Picked(s, k, act.up).value.job.id;
      RowCoherent(u, t.db[id]);
      assert t.db == u.db[id := t.db[id]];
    }
  }

  lemma ScanLost(c: Config, s: State, k: nat, act: ScanAct)
    requires Base(c, s) && Enabled(c, s, Scan(k, act))
    ensures forall id :: id in FireScan(c, s, k, act).hist.lost && id !in s.hist.lost ==>
      act.Put? && s.scans[k].hand.value.id == id && id in s.db
    ensures act.Pick? ==> FireScan(c, s, k, act).hist.lost <= s.hist.lost
  {
    assert ScannerOk(s.db, s.scans[k]);
  }

  lemma ScanBase(c: Config, s: State, ev: Event)
    requires Base(c, s) && Enabled(c, s, ev) && ev.Scan?
    ensures Base(c, Fire(c, s, ev))
  {
    var t := Fire(c, s, ev);
    forall id ensures Copies(t, id) >= Due(t, id) { ScanCopies(c, s, ev, id); }
    ScanCoherent(c, s, ev.k, ev.step);
    ScanLost(c, s, ev.k, ev.step);
  }

  predicate ResetBy(p: Option<Row>, id: JobId) {
    p.Some? && p.value.job.id == id && p.value.status.Processing?
  }

  // A scanner's step changes at most the status of one row.
  lemma ScanRows(c: Config, s: State, ev: Event)
    requires Base(c, s) && Enabled(c, s, ev) && ev.Scan?
    ensures var t, p := Fire(c, s, ev), PickedBy(s, ev);
            forall id :: id in s.db ==>
              id in t.db && (t.db[id] == s.db[id] || (ResetBy(p, id) && t.db[id] == Stamp(s.db[id], Pending, s.now)))
  {
    if ev.step.Pick? { PickEffect(c, s, ev.k, ev.step.up); }
  }

  lemma ScannerIsLive(s: State, k: nat)
    requires Owned(s) && k < |s.scans| && s.scans[k].hand.Some?
    ensures Live(s.db, s.scans[k].hand.value.id)
  {
    var id := s.scans[k].hand.value.id;
    CountPositive(s.scans, k, ScannerHas(id));
    assert Copies(s, id) == Due(s, id);
  }

  lemma ScanSolo(c: Config, s: State, ev: Event)
    requires Inv(c, s) && Enabled(c, s, ev) && ev.Scan? && Harmless(c, s, ev)
    ensures Solo(Fire(c, s, ev))
  {
    var t := Fire(c, s, ev);
    forall id ensures Copies(t, id) == Due(t, id) { ScanCopies(c, s, ev, id); }
    ScanBudgeted(c, s, ev);
    ScanLost(c, s, ev.k, ev.step);
    if ev.step.Put? { ScannerIsLive(s, ev.k); }
  }

  lemma ScanBudgeted(c: Config, s: State, ev: Event)
    requires Inv(c, s) && Enabled(c, s, ev) && ev.Scan? && Harmless(c, s, ev)
    ensures Budgeted(Fire(c, s, ev).db) && FreshReads(Fire(c, s, ev))
    ensures forall id :: Live(s.db, id) ==> Live(Fire(c, s, ev).db, id)
  {
    var t := Fire(c, s, ev);
    ScanRows(c, s, ev);
    ScanCoherent(c, s, ev.k, ev.step);
    forall i | 0 <= i < |t.ws| ensures FreshRead(t.db, t.ws[i]) {
      assert FreshRead(s.db, s.ws[i]);
    }
  }
}
