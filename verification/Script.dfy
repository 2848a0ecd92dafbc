// What each event of the running server does, told a second time and in other terms than
// the machine's: component by component, on the columns, queues and flags themselves, and
// for a worker as the order of its calls. The machine is proved to agree in every run.
module Script {
  import opened Models
  import opened Ordering
  import opened Tables
  import opened Lifecycle
  import opened Ownership
  import opened Theorems
  import Supervision
  import Counting

  // The numbers the source fixes.
  lemma Constants()
    ensures PRIORITY_NORMAL == 1 && PRIORITY_SUPER_URGENT == 3 && MINUTE == 60_000_000_000
    ensures forall p :: NormalizePriority(p) == if p == 1 || p == 2 || p == 3 then p else 1
    ensures forall s: Status :: s.Terminal() <==> s == Completed || s == Failed
  {
  }

  // ---- the table ---------------------------------------------------------------------

  // What recovery (startup) or a sweeper re-enqueues from its listing.
  predicate Takes(startup: bool, lane: Lane, now: Time, row: Row) {
    && (lane == ToPriority ==> row.job.queue == Priority)
    && (startup || row.status == Pending || (row.status == Processing && now - row.updatedAt > 600_000_000_000))
  }

  // The columns a worker's statement writes; a statement that fails writes none.
  function WorkerWrites(pc: Pc, act: Act, row: Row, now: Time): Row {
    match act
    case SetProcessing(true) => row.(status := Processing, updatedAt := now)
    case Ack(true) => row.(status := Completed, updatedAt := now, processedAt := Some(now))
    case RequeueWrite(true) => row.(status := Pending, updatedAt := now)
    case NackWrite(true) =>
      if !pc.NackWriting? then row
      else if pc.retries + 1 >= pc.maxRetries then
        row.(status := Failed, retries := pc.retries + 1, updatedAt := now, processedAt := Some(now))
      else row.(status := Pending, retries := pc.retries + 1, updatedAt := now)
    case _ => row
  }

  function TableAfter(c: Config, s: State, ev: Event): Table
    requires ev.Work? ==> ev.i < |s.ws|
    requires ev.ResetRetry? ==> ev.t < |s.hs| && s.hs[ev.t].RetryAsked?
    requires ev.Scan? ==> ev.k < |s.scans|
  {
    match ev
    case Create(id, queue, p, up) =>
      if up && id !in s.db then
        var job := Job(id, queue, if p == 1 || p == 2 || p == 3 then p else 1, s.now);
        s.db[id := Row(job, Pending, 0, 3, s.now, None)]
      else s.db
    case ResetRetry(t, up) =>
      var id := s.hs[t].id;
      if up && id in s.db && s.db[id].status == Failed then
        var row := s.db[id];
        s.db[id := Row(row.job, Pending, if c.backend == Sqlite then 0 else row.retries, row.maxRetries + 3, s.now,
                       row.processedAt)]
      else s.db
    case Work(i, act) =>
      var pc := s.ws[i].pc;
      if Carries(pc) && pc.job.id in s.db then
        s.db[pc.job.id := WorkerWrites(pc, act, s.db[pc.job.id], s.now)]
      else s.db
    case Scan(k, Pick(true)) =>
      var x := s.scans[k];
      if x.todo != [] && x.todo[0].status == Processing && Takes(k == 0, x.lane, s.now, x.todo[0])
         && x.todo[0].job.id in s.db
      then
        var id := x.todo[0].job.id;
        s.db[id := s.db[id].(status := Pending, updatedAt := s.now)]
      else s.db
    case _ => s.db
  }

  lemma PollTable(c: Config, s: State, i: nat, act: Act)
    requires Base(c, s) && i < |s.ws| && ActEnabled(c, s, i, act) && Polling(act)
    ensures Poll(s, s.ws[i], act).row.None?
    ensures TableAfter(c, s, Work(i, act)) == s.db
  {
  }

  lemma FinalizeTable(c: Config, s: State, i: nat, act: Act)
    requires i < |s.ws| && ActEnabled(c, s, i, act) && Finalizing(act) && Keyed(s.db)
    requires Known(s.db, s.ws[i].pc.job)
    ensures AfterRow(s.db, Finalize(s, s.ws[i], act)) == TableAfter(c, s, Work(i, act))
  {
    var id := s.ws[i].pc.job.id;
    assert s.db == s.db[id := s.db[id]];
  }

  lemma ExecuteTable(c: Config, s: State, i: nat, act: Act)
    requires i < |s.ws| && ActEnabled(c, s, i, act) && !Polling(act) && !Finalizing(act) && Keyed(s.db)
    requires Carries(s.ws[i].pc) ==> Known(s.db, s.ws[i].pc.job)
    ensures AfterRow(s.db, Execute(s, s.ws[i], act)) == TableAfter(c, s, Work(i, act))
  {
    if Carries(s.ws[i].pc) {
      var id := s.ws[i].pc.job.id;
      assert s.db == s.db[id := s.db[id]];
    }
  }

  lemma WorkTable(c: Config, s: State, i: nat, act: Act)
    requires Base(c, s) && i < |s.ws| && ActEnabled(c, s, i, act)
    ensures Apply(c, s, i, Perform(c, s, i, act)).db == TableAfter(c, s, Work(i, act))
  {
    assert WorkerOk(s.db, s.ws[i]);
    if Polling(act) {
      PollTable(c, s, i, act);
    } else if Finalizing(act) {
      FinalizeTable(c, s, i, act);
    } else {
      ExecuteTable(c, s, i, act);
    }
  }

  lemma ScanTable(c: Config, s: State, k: nat, step: ScanAct)
    requires Base(c, s) && Enabled(c, s, Scan(k, step))
    ensures FireScan(c, s, k, step).db == TableAfter(c, s, Scan(k, step))
  {
    if step.Pick? { PickEffect(c, s, k, step.up); }
  }

  lemma HttpTable(c: Config, s: State, ev: Event)
    requires Enabled(c, s, ev) && (ev.Create? || ev.ResetRetry?)
    ensures FireHttp(c, s, ev).db == TableAfter(c, s, ev)
  {
  }

  lemma SameTable(c: Config, s: State, ev: Event)
    requires Enabled(c, s, ev) && !ev.Work? && !ev.Scan? && !ev.Create? && !ev.ResetRetry?
    ensures Fire(c, s, ev).db == s.db == TableAfter(c, s, ev)
  {
  }

  lemma OtherTable(c: Config, s: State, ev: Event)
    requires Enabled(c, s, ev) && !ev.Work? && !ev.Scan?
    ensures Fire(c, s, ev).db == TableAfter(c, s, ev)
  {
    if ev.Create? || ev.ResetRetry? { HttpTable(c, s, ev); } else { SameTable(c, s, ev); }
  }

  lemma StepTable(c: Config, s: State, ev: Event)
    requires Base(c, s) && Enabled(c, s, ev)
    ensures Fire(c, s, ev).db == TableAfter(c, s, ev)
  {
    if ev.Work? {
      WorkTable(c, s, ev.i, ev.act);
    } else if ev.Scan? {
      ScanTable(c, s, ev.k, ev.step);
    } else {
      OtherTable(c, s, ev);
    }
  }

  // Every change of the table is one of the source's statements, column by column, and
  // every statement that succeeds changes it so.
  lemma TableStory(c: Config, ss: seq<State>, evs: seq<Event>, k: nat)
    requires Run(c, ss, evs) && k < |evs|
    ensures ss[k + 1].db == TableAfter(c, ss[k], evs[k])
  {
    RunSane(c, ss, evs, k);
    StepTable(c, ss[k], evs[k]);
  }

  // ---- the queues and the bucket -------------------------------------------------------

  function QueuesAfter(s: State, ev: Event): Queues
    requires ev.Work? ==> ev.i < |s.ws|
    requires ev.Enqueue? || ev.EnqueueRetry? ==> ev.t < |s.hs| && HandlerCarries(s.hs[ev.t])
    requires ev.Scan? ==> ev.k < |s.scans|
  {
    var q := s.q;
    match ev
    case Work(i, act) =>
      (match act
       case PopPriority => q.(prio := if q.prio == [] then [] else q.prio[1..])
       case ReceiveRate(true) => q.(rate := if q.rate == [] then [] else q.rate[1..])
       case ReceiveFifo(true) => q.(fifo := if q.fifo == [] then [] else q.fifo[1..])
       case NackEnqueue(true) => q.(fifo := q.fifo + if Carries(s.ws[i].pc) then [s.ws[i].pc.job] else [])
       case RequeueEnqueue(true) => q.(fifo := q.fifo + if Carries(s.ws[i].pc) then [s.ws[i].pc.job] else [])
       case _ => q)
    case Enqueue(t, true) =>
      var job := s.hs[t].job;
      if job.queue == Priority then q.(prio := Insert(q.prio, job))
      else if job.queue == RateLimited then q.(rate := q.rate + [job])
      else q.(fifo := q.fifo + [job])
    case EnqueueRetry(t, true) => q.(fifo := q.fifo + [s.hs[t].job])
    case Scan(k, Put(true)) =>
      var x := s.scans[k];
      if x.hand.None? then q
      else if x.lane == ToPriority then q.(prio := Insert(q.prio, x.hand.value))
      else if x.lane == ToRate then q.(rate := q.rate + [x.hand.value])
      else q.(fifo := q.fifo + [x.hand.value])
    case Crash => Queues([], [], [])
    case _ => q
  }

  function TokensAfter(c: Config, s: State, ev: Event): int {
    match ev
    case Work(_, Spend) => if s.tokens > 0 then s.tokens - 1 else s.tokens
    case Tick => if s.tokens < c.burst then s.tokens + 1 else s.tokens
    case Crash => c.burst
    case _ => s.tokens
  }

  lemma WorkQueues(c: Config, s: State, i: nat, act: Act)
    requires i < |s.ws| && ActEnabled(c, s, i, act)
    ensures var e := Perform(c, s, i, act);
            var q := Withdraw(s.q, e.take);
            (if e.give.Some? then PushFifo(q, e.give.value) else q) == QueuesAfter(s, Work(i, act))
    ensures s.tokens - Counting.Bit(Perform(c, s, i, act).spend) == TokensAfter(c, s, Work(i, act))
  {
  }

  lemma OtherQueues(c: Config, s: State, ev: Event)
    requires Enabled(c, s, ev) && !ev.Work?
    ensures Fire(c, s, ev).q == QueuesAfter(s, ev) && Fire(c, s, ev).tokens == TokensAfter(c, s, ev)
  {
  }

  // Every change of the queues and of the bucket: from the head, to the back or into the
  // sorted place of the queue the job belongs to, one token for one rate-limited job.
  lemma QueueStory(c: Config, ss: seq<State>, evs: seq<Event>, k: nat)
    requires Run(c, ss, evs) && k < |evs|
    ensures ss[k + 1].q == QueuesAfter(ss[k], evs[k])
    ensures ss[k + 1].tokens == TokensAfter(c, ss[k], evs[k])
  {
    if evs[k].Work? {
      WorkQueues(c, ss[k], evs[k].i, evs[k].act);
    } else {
      OtherQueues(c, ss[k], evs[k]);
    }
  }

  ghost predicate Fits(c: Config, s: State) {
    |s.q.fifo| <= c.fifoCap && |s.q.rate| <= c.rateCap
  }

  lemma FitsStep(c: Config, s: State, ev: Event)
    requires Enabled(c, s, ev) && Fits(c, s)
    ensures Fits(c, Fire(c, s, ev))
  {
    if ev.Work? { WorkQueues(c, s, ev.i, ev.act); } else { OtherQueues(c, s, ev); }
  }

  // The channels never hold more than their capacity.
  lemma {:induction false} ChannelsFit(c: Config, ss: seq<State>, evs: seq<Event>, k: nat)
    requires Run(c, ss, evs) && k < |ss|
    ensures |ss[k].q.fifo| <= c.fifoCap && |ss[k].q.rate| <= c.rateCap
  {
    if k > 0 {
      ChannelsFit(c, ss, evs, k - 1);
      FitsStep(c, ss[k - 1], evs[k - 1]);
    }
  }

  // ---- the pool's shared fields ---------------------------------------------------------

  // The worker is registered for a normal job and its slot is free.
  predicate Yields(w: Worker) {
    w.cur.Some? && w.cur.value.priority == 1 && w.slot.None?
  }

  function PoolAfter(s: State, ev: Event, j: nat): (Option<Job>, Ctx, Option<Job>)
    requires j < |s.ws| && (ev.Place? ==> ev.t < |s.hs| && s.hs[ev.t].Created?)
  {
    var w := s.ws[j];
    match ev
    case Place(t) =>
      if s.hs[t].job.priority == 3 && Yields(w) && forall x :: 0 <= x < j ==> !Yields(s.ws[x])
      then (w.cur, if w.ctx == Alive then Cancelled else w.ctx, Some(s.hs[t].job))
      else (w.cur, w.ctx, w.slot)
    case Work(i, act) =>
      if i != j then (w.cur, w.ctx, w.slot)
      else (match act
            case TakeSlot => (w.cur, w.ctx, None)
            case Register => (if Carries(w.pc) then Some(w.pc.job) else None, Alive, w.slot)
            case Deadline => (w.cur, TimedOut, w.slot)
            case Cleanup => (None, w.ctx, w.slot)
            case _ => (w.cur, w.ctx, w.slot))
    case Crash => (None, Alive, None)
    case _ => (w.cur, w.ctx, w.slot)
  }

  lemma WorkPool(c: Config, s: State, i: nat, act: Act)
    requires i < |s.ws| && ActEnabled(c, s, i, act)
    ensures var w := Perform(c, s, i, act).w; (w.cur, w.ctx, w.slot) == PoolAfter(s, Work(i, act), i)
  {
  }

  lemma PlacePool(c: Config, s: State, t: nat, j: nat)
    requires Enabled(c, s, Place(t)) && j < |s.ws|
    ensures var w := FireHttp(c, s, Place(t)).ws[j]; (w.cur, w.ctx, w.slot) == PoolAfter(s, Place(t), j)
    ensures FireHttp(c, s, Place(t)).ws[j].pc == s.ws[j].pc
  {
    assert forall w :: Eligible(w) <==> Yields(w);
  }

  lemma ElsewherePool(c: Config, s: State, i: nat, act: Act, j: nat)
    requires i < |s.ws| && j < |s.ws| && i != j && ActEnabled(c, s, i, act)
    ensures Apply(c, s, i, Perform(c, s, i, act)).ws[j] == s.ws[j]
  {
  }

  lemma RestartPool(c: Config, s: State, j: nat)
    requires Enabled(c, s, Restart) && j < |s.ws|
    ensures FireEnv(c, s, Restart).ws[j] == s.ws[j].(pc := FireEnv(c, s, Restart).ws[j].pc)
  {
  }

  lemma SamePool(c: Config, s: State, ev: Event)
    requires Enabled(c, s, ev) && !ev.Place? && !ev.Work? && !ev.Restart? && !ev.Crash?
    ensures Fire(c, s, ev).ws == s.ws
  {
  }

  lemma OtherPool(c: Config, s: State, ev: Event, j: nat)
    requires Sane(c, s) && Enabled(c, s, ev) && j < |s.ws| && !ev.Place? && !(ev.Work? && ev.i == j)
    ensures |Fire(c, s, ev).ws| == |s.ws|
    ensures var w := Fire(c, s, ev).ws[j]; (w.cur, w.ctx, w.slot) == PoolAfter(s, ev, j)
  {
    if ev.Work? {
      ElsewherePool(c, s, ev.i, ev.act, j);
    } else if ev.Restart? {
      RestartPool(c, s, j);
    } else if !ev.Crash? {
      SamePool(c, s, ev);
    }
  }

  // Every change of a worker's registration, context and slot; in particular a super-urgent
  // job cancels and displaces exactly the first worker that yields, whenever there is one.
  lemma PoolStory(c: Config, ss: seq<State>, evs: seq<Event>, k: nat, j: nat)
    requires Run(c, ss, evs) && k < |evs| && j < c.workers
    ensures |ss[k].ws| == |ss[k + 1].ws| == c.workers
    ensures var w := ss[k + 1].ws[j]; (w.cur, w.ctx, w.slot) == PoolAfter(ss[k], evs[k], j)
  {
    RunSane(c, ss, evs, k);
    RunSane(c, ss, evs, k + 1);
    if evs[k].Place? {
      PlacePool(c, ss[k], evs[k].t, j);
    } else if evs[k].Work? && evs[k].i == j {
      WorkPool(c, ss[k], j, evs[k].act);
    } else {
      OtherPool(c, ss[k], evs[k], j);
    }
  }

  // ---- handlers, scanners, crew -----------------------------------------------------------

  function HandlersAfter(s: State, ev: Event): seq<Handler>
    requires ev.Place? ==> ev.t < |s.hs| && s.hs[ev.t].Created?
    requires ev.ResetRetry? ==> ev.t < |s.hs| && s.hs[ev.t].RetryAsked?
    requires ev.ReadRetry? ==> ev.t < |s.hs| && s.hs[ev.t].RetryReading?
    requires ev.Enqueue? || ev.EnqueueRetry? ==> ev.t < |s.hs|
  {
    match ev
    case Create(id, queue, p, up) =>
      if up && id !in s.db
      then s.hs + [Created(Job(id, queue, if p == 1 || p == 2 || p == 3 then p else 1, s.now))] else s.hs
    case Place(t) =>
      var job := s.hs[t].job;
      s.hs[t := if job.priority == 3 && exists j :: 0 <= j < |s.ws| && Yields(s.ws[j]) then Replied else Enqueuing(job)]
    case Enqueue(t, _) => s.hs[t := Replied]
    case AskRetry(id) => if id in s.db && s.db[id].status == Failed then s.hs + [RetryAsked(id)] else s.hs
    case ResetRetry(t, up) =>
      var id := s.hs[t].id;
      s.hs[t := if up && id in s.db && s.db[id].status == Failed then RetryReading(s.db[id].job) else Replied]
    case ReadRetry(t, up) => s.hs[t := if up then RetryEnqueuing(s.hs[t].job) else Replied]
    case EnqueueRetry(t, _) => s.hs[t := Replied]
    case Crash => []
    case _ => s.hs
  }

  // CreateJob and RetryJob, step by step.
  lemma HandlerStory(c: Config, ss: seq<State>, evs: seq<Event>, k: nat)
    requires Run(c, ss, evs) && k < |evs|
    ensures ss[k + 1].hs == HandlersAfter(ss[k], evs[k])
  {
    RunSane(c, ss, evs, k);
    StepHandlers(c, ss[k], evs[k]);
  }

  lemma StepHandlers(c: Config, s: State, ev: Event)
    requires Base(c, s) && Enabled(c, s, ev)
    ensures Fire(c, s, ev).hs == HandlersAfter(s, ev)
  {
    if ev.Place? {
      PlaceHandlers(c, s, ev.t);
    } else if ev.ReadRetry? {
      assert HandlerOk(s.db, s.hs[ev.t]);
    }
  }

  lemma PlaceHandlers(c: Config, s: State, t: nat)
    requires Enabled(c, s, Place(t))
    ensures FireHttp(c, s, Place(t)).hs == HandlersAfter(s, Place(t))
  {
    assert forall w :: Eligible(w) <==> Yields(w);
    var v := Victim(s.ws);
    assert v.Some? ==> Yields(s.ws[v.value]);
  }

  // A super-urgent job preempts whenever some worker yields, and only then.
  lemma PreemptsIffPossible(c: Config, ss: seq<State>, evs: seq<Event>, k: nat)
    requires Run(c, ss, evs) && k < |evs| && evs[k].Place?
    ensures var job := ss[k].hs[evs[k].t].job;
            ss[k + 1].hs[evs[k].t] == Replied <==>
              job.priority == 3 && exists j :: 0 <= j < |ss[k].ws| && Yields(ss[k].ws[j])
    ensures ss[k + 1].hist.preempts == ss[k].hist.preempts + if ss[k + 1].hs[evs[k].t] == Replied then 1 else 0
  {
    HandlerStory(c, ss, evs, k);
    assert ss[k + 1] == FireHttp(c, ss[k], evs[k]);
  }

  function GivenUp(x: Scanner): Scanner {
    Scanner(x.lane, Aborted, [], None)
  }

  // Recovery (scanner 0) serves FIFO, then priority, then rate-limited, and gives up at the
  // first failure; a sweeper goes on with the next row and starts over when it is done.
  function ScannerAfter(s: State, k: nat, step: ScanAct): Scanner
    requires k < |s.scans| && (step.Pick? ==> s.scans[k].todo != [])
  {
    var x, startup := s.scans[k], k == 0;
    match step
    case List(up, rows) =>
      if up then Scanner(x.lane, Active, rows, x.hand) else if startup then GivenUp(x) else x
    case Pick(up) =>
      var row, rest := x.todo[0], x.todo[1..];
      if !Takes(startup, x.lane, s.now, row) then Scanner(x.lane, x.mode, rest, x.hand)
      else if up || row.status != Processing then Scanner(x.lane, x.mode, rest, Some(row.job))
      else if startup then GivenUp(x)
      else Scanner(x.lane, x.mode, rest, None)
    case Put(fits) => if !fits && startup then GivenUp(x) else Scanner(x.lane, x.mode, x.todo, None)
    case Finish =>
      if !startup then Scanner(x.lane, Resting, [], None)
      else if x.lane == ToFifo then Scanner(ToPriority, Resting, [], None)
      else if x.lane == ToPriority then Scanner(ToRate, Resting, [], None)
      else Scanner(ToRate, Ended, x.todo, x.hand)
  }

  lemma StepScanner(c: Config, s: State, k: nat, step: ScanAct)
    requires Base(c, s) && Enabled(c, s, Scan(k, step))
    ensures FireScan(c, s, k, step).scans == s.scans[k := ScannerAfter(s, k, step)]
  {
    var x := s.scans[k];
    assert ScannerOk(s.db, x);
    if step.Pick? { assert Wants(k == STARTUP, x.lane, s.now)(x.todo[0]) <==> PickTakes(s, k); }
  }

  predicate PickTakes(s: State, k: nat)
    requires k < |s.scans| && s.scans[k].todo != []
  {
    var x := s.scans[k];
    Takes(k == 0, x.lane, s.now, x.todo[0])
  }

  lemma OtherScanners(c: Config, s: State, ev: Event)
    requires Enabled(c, s, ev) && !ev.Scan?
    ensures Fire(c, s, ev).scans ==
      if ev.Crash? then [Scanner(ToFifo, Resting, [], None), Scanner(ToFifo, Resting, [], None),
                         Scanner(ToPriority, Resting, [], None), Scanner(ToRate, Resting, [], None)]
      else s.scans
  {
  }

  // Recovery and the sweepers, step by step; a start begins recovery anew.
  lemma ScannerStory(c: Config, ss: seq<State>, evs: seq<Event>, k: nat)
    requires Run(c, ss, evs) && k < |evs|
    ensures ss[k + 1].scans ==
      if evs[k].Scan? then ss[k].scans[evs[k].k := ScannerAfter(ss[k], evs[k].k, evs[k].step)]
      else if evs[k].Crash? then
        [Scanner(ToFifo, Resting, [], None), Scanner(ToFifo, Resting, [], None),
         Scanner(ToPriority, Resting, [], None), Scanner(ToRate, Resting, [], None)]
      else ss[k].scans
  {
    RunSane(c, ss, evs, k);
    if evs[k].Scan? {
      StepScanner(c, ss[k], evs[k].k, evs[k].step);
    } else {
      OtherScanners(c, ss[k], evs[k]);
    }
  }

  function CrewAfter(c: Config, s: State, ev: Event): Crew
    requires ev.Notice? ==> s.crew.died != []
    requires ev.Restart? || ev.Leave? ==> s.crew.sup.Holding? || s.crew.sup.Watching?
  {
    var w := s.crew;
    match ev
    case Work(i, Die) => if |w.died| < c.workers then w.(died := w.died + [i]) else w
    case Notice => w.(died := w.died[1..], sup := Holding(w.died[0]))
    case Restart => w.(sup := Watching)
    case Leave => w.(sup := if w.sup.Holding? then QuitHolding(w.sup.id) else Quit)
    case EndRefill => w.(refilling := false)
    case Stop => w.(stopped := true)
    case Crash => Crew([], Watching, false, true)
    case _ => w
  }

  // Deaths, the supervisor and shutdown, step by step.
  lemma CrewStory(c: Config, ss: seq<State>, evs: seq<Event>, k: nat)
    requires Run(c, ss, evs) && k < |evs|
    ensures ss[k + 1].crew == CrewAfter(c, ss[k], evs[k])
    ensures ss[k + 1].now == ss[k].now + if evs[k].Advance? then evs[k].d else 0
  {
    if evs[k].Work? {
      Supervision.DeathIsDie(c, ss[k], evs[k].i, evs[k].act);
    }
  }

  // What the machine counts for its theorems is what happened: preemptions (see
  // PreemptsIffPossible), penalty-free requeues, and per job the nacks written and the
  // manual retries granted.
  lemma HistoryStory(c: Config, ss: seq<State>, evs: seq<Event>, k: nat, id: JobId)
    requires Run(c, ss, evs) && k < |evs|
    ensures ss[k + 1].hist.requeues == ss[k].hist.requeues
      + if evs[k].Work? && evs[k].act == RequeueWrite(true) then 1 else 0
    ensures Counting.Read(ss[k + 1].hist.nacks, id) == Counting.Read(ss[k].hist.nacks, id)
      + if evs[k].Work? && evs[k].act == NackWrite(true) && ss[k].ws[evs[k].i].pc.job.id == id then 1 else 0
    ensures Counting.Read(ss[k + 1].hist.revivals, id) == Counting.Read(ss[k].hist.revivals, id)
      + if ResetRetryOf(ss[k], evs[k], id) then 1 else 0
  {
    RunSane(c, ss, evs, k);
    if evs[k].Work? {
      WorkHistory(c, ss[k], evs[k].i, evs[k].act, id);
    } else {
      OtherHistory(c, ss[k], evs[k], id);
    }
  }

  predicate ResetRetryOf(s: State, ev: Event, id: JobId) {
    && ev.ResetRetry? && ev.up && ev.t < |s.hs| && s.hs[ev.t].RetryAsked? && s.hs[ev.t].id == id
    && id in s.db && s.db[id].status == Failed
  }

  lemma Marks(c: Config, s: State, i: nat, act: Act)
    requires Base(c, s) && i < |s.ws| && ActEnabled(c, s, i, act)
    ensures var e := Perform(c, s, i, act);
            && (e.requeued <==> act == RequeueWrite(true))
            && (e.nacked && e.row.Some? <==> act == NackWrite(true))
            && (e.row.Some? ==> e.row.value.job == s.ws[i].pc.job)
  {
    assert WorkerOk(s.db, s.ws[i]);
  }

  lemma WorkHistory(c: Config, s: State, i: nat, act: Act, id: JobId)
    requires Base(c, s) && i < |s.ws| && ActEnabled(c, s, i, act)
    ensures var t := Apply(c, s, i, Perform(c, s, i, act));
            && t.hist.requeues == s.hist.requeues + Counting.Bit(act == RequeueWrite(true))
            && Counting.Read(t.hist.nacks, id)
                 == Counting.Read(s.hist.nacks, id) + Counting.Bit(act == NackWrite(true) && s.ws[i].pc.job.id == id)
            && t.hist.revivals == s.hist.revivals
  {
    Marks(c, s, i, act);
    RecordMeans(s.hist, Perform(c, s, i, act), id);
  }

  lemma RecordMeans(h: History, e: Effect, id: JobId)
    ensures var r := Record(h, e);
            && r.requeues == h.requeues + Counting.Bit(e.requeued) && r.revivals == h.revivals
            && Counting.Read(r.nacks, id)
                 == Counting.Read(h.nacks, id) + Counting.Bit(e.nacked && e.row.Some? && e.row.value.job.id == id)
  {
  }

  lemma OtherHistory(c: Config, s: State, ev: Event, id: JobId)
    requires Enabled(c, s, ev) && !ev.Work?
    ensures var t := Fire(c, s, ev);
            && t.hist.requeues == s.hist.requeues && t.hist.nacks == s.hist.nacks
            && Counting.Read(t.hist.revivals, id)
                 == Counting.Read(s.hist.revivals, id) + Counting.Bit(ResetRetryOf(s, ev, id))
  {
    if ev.ResetRetry? { ResetHistory(c, s, ev, id); } else { SameHistory(c, s, ev); }
  }

  lemma ResetHistory(c: Config, s: State, ev: Event, id: JobId)
    requires Enabled(c, s, ev) && ev.ResetRetry?
    ensures var t := FireHttp(c, s, ev);
            && t.hist.requeues == s.hist.requeues && t.hist.nacks == s.hist.nacks
            && Counting.Read(t.hist.revivals, id)
                 == Counting.Read(s.hist.revivals, id) + Counting.Bit(ResetRetryOf(s, ev, id))
  {
  }

  lemma SameHistory(c: Config, s: State, ev: Event)
    requires Enabled(c, s, ev) && !ev.Work? && !ev.ResetRetry?
    ensures var t := Fire(c, s, ev);
            t.hist.requeues == s.hist.requeues && t.hist.nacks == s.hist.nacks && t.hist.revivals == s.hist.revivals
  {
  }

  // ---- nobody is held up but by a full channel or an unfinished recovery -------------------

  // A job gets into its queue when there is room, and only then.
  lemma EntersIffRoom(c: Config, s: State, t: nat, k: nat)
    requires t < |s.hs| && k < |s.scans|
    ensures s.hs[t].Enqueuing? ==>
      (Enabled(c, s, Enqueue(t, true)) <==>
        var queue := s.hs[t].job.queue;
        queue == Priority || (queue == RateLimited && |s.q.rate| < c.rateCap)
        || (queue != RateLimited && |s.q.fifo| < c.fifoCap))
    ensures s.hs[t].RetryEnqueuing? ==> (Enabled(c, s, EnqueueRetry(t, true)) <==> |s.q.fifo| < c.fifoCap)
    ensures var x := s.scans[k];
      x.mode.Active? && x.hand.Some? ==>
        (Enabled(c, s, Scan(k, Put(true))) <==>
          x.lane == ToPriority || (x.lane == ToRate && |s.q.rate| < c.rateCap) || (x.lane == ToFifo && |s.q.fifo| < c.fifoCap))
  {
  }

  // A request is always answered, one step after the other; requests are accepted exactly
  // when start-up recovery is done.
  lemma HandlerMoves(c: Config, s: State, t: nat) returns (ev: Event)
    requires t < |s.hs| && s.hs[t] != Replied
    ensures Enabled(c, s, ev) && Http(ev) && !ev.Create? && !ev.AskRetry? && ev.t == t
    ensures forall id, queue, p, up ::
      Enabled(c, s, Create(id, queue, p, up)) <==> |s.scans| > 0 && s.scans[0].mode == Ended
    ensures forall id :: Enabled(c, s, AskRetry(id)) <==> |s.scans| > 0 && s.scans[0].mode == Ended
  {
    ev := match s.hs[t]
      case Created(_) => Place(t)
      case Enqueuing(_) => Enqueue(t, false)
      case RetryAsked(_) => ResetRetry(t, true)
      case RetryReading(_) => ReadRetry(t, true)
      case RetryEnqueuing(_) => EnqueueRetry(t, false)
      case Replied => Place(t);
  }

  // A scanner that has not ended or given up can always take its next step, and so can the
  // supervisor with a death to see to; the refill ticks exactly while the router is open,
  // and the pool is stopped only after that.
  lemma OthersMove(c: Config, s: State, k: nat, rows: seq<Row>) returns (step: ScanAct)
    requires k < |s.scans| && (s.scans[k].mode.Resting? || s.scans[k].mode.Active?) && IsListing(s.db, rows)
    ensures Enabled(c, s, Scan(k, step))
    ensures s.scans[k].mode.Resting? ==> step == List(true, rows)
    ensures s.scans[k].mode.Active? && s.scans[k].hand.None? && s.scans[k].todo != [] ==> step == Pick(true)
    ensures s.crew.sup == Watching && s.crew.died != [] ==> Enabled(c, s, Notice)
    ensures s.crew.sup.Holding? && s.crew.sup.id < |s.ws| ==> Enabled(c, s, Restart)
    ensures s.crew.stopped && (s.crew.sup == Watching || s.crew.sup.Holding?) ==> Enabled(c, s, Leave)
    ensures Enabled(c, s, Tick) <==> s.crew.refilling
    ensures Enabled(c, s, Stop) <==> !s.crew.refilling && !s.crew.stopped
    ensures Enabled(c, s, EndRefill) <==> s.crew.refilling
    ensures Enabled(c, s, Crash)
  {
    var x := s.scans[k];
    step := if x.mode.Resting? then List(true, rows)
            else if x.hand.Some? then Put(false)
            else if x.todo != [] then Pick(true)
            else Finish;
  }
}
