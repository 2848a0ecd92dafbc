// Whole runs of the priority queue: any interleaving of insertions and pops.
module PriorityRuns {
  import opened Models
  import opened Ordering

  datatype Op = Put(job: Job) | Take

  // An enqueued job together with its position in the order of arrival.
  datatype Entry = Entry(job: Job, arrival: nat)

  // slice: what the queue holds; out: what it has handed out, oldest first.
  datatype State = State(slice: seq<Entry>, out: seq<Entry>, arrivals: nat)

  // (priority DESC, created_at ASC, arrival ASC)
  predicate Precedes(a: Entry, b: Entry) {
    || Outranks(a.job, b.job)
    || (SameKey(a.job, b.job) && a.arrival < b.arrival)
  }

  // On the fields.
  predicate Before(a: Entry, b: Entry) {
    || a.job.priority > b.job.priority
    || (a.job.priority == b.job.priority && a.job.createdAt < b.job.createdAt)
    || (a.job.priority == b.job.priority && a.job.createdAt == b.job.createdAt && a.arrival < b.arrival)
  }

  lemma PrecedesMeans(a: Entry, b: Entry)
    ensures Precedes(a, b) <==> Before(a, b)
  {
  }

  predicate StrictlySorted(q: seq<Entry>) {
    forall i, k :: 0 <= i < k < |q| ==> Precedes(q[i], q[k])
  }

  function Jobs(q: seq<Entry>): (r: seq<Job>)
    ensures |r| == |q| && forall i :: 0 <= i < |q| ==> r[i] == q[i].job
  {
    seq(|q|, i requires 0 <= i < |q| => q[i].job)
  }

  // The queue operations: the insertion scan and the re-slice of the head.
  function Step(s: State, op: Op): State {
    match op
    case Put(job) =>
      var i := Slot(Jobs(s.slice), job);
      State(s.slice[..i] + [Entry(job, s.arrivals)] + s.slice[i..], s.out, s.arrivals + 1)
    case Take =>
      if s.slice == [] then s
      else State(s.slice[1..], s.out + [s.slice[0]], s.arrivals)
  }

  function Run(s: State, ops: seq<Op>): State
    decreases |ops|
  {
    if ops == [] then s else Run(Step(s, ops[0]), ops[1..])
  }

  const START := State([], [], 0)

  // Entries ever accepted by a run that began with the arrival counter at n.
  function Accepted(ops: seq<Op>, n: nat): multiset<Entry> {
    if ops == [] then multiset{}
    else match ops[0]
      case Put(job) => multiset{Entry(job, n)} + Accepted(ops[1..], n + 1)
      case Take => Accepted(ops[1..], n)
  }

  ghost predicate Inv(s: State) {
    && StrictlySorted(s.slice)
    && forall k :: 0 <= k < |s.slice| ==> s.slice[k].arrival < s.arrivals
  }

  // q with e put in at i is strictly sorted when e precedes what follows and what
  // comes before precedes e.
  lemma PutSorted(q: seq<Entry>, i: nat, e: Entry, r: seq<Entry>)
    requires StrictlySorted(q) && i <= |q| && r == q[..i] + [e] + q[i..]
    requires forall a :: 0 <= a < i ==> Precedes(q[a], e)
    requires forall b :: i <= b < |q| ==> Precedes(e, q[b])
    ensures StrictlySorted(r)
  {
    forall a, b | 0 <= a < b < |r| ensures Precedes(r[a], r[b]) {
      assert r[a] == if a < i then q[a] else if a == i then e else q[a - 1];
      assert r[b] == if b < i then q[b] else if b == i then e else q[b - 1];
    }
  }

  // Everything from the slot on is outranked by the newcomer; nothing before it is, and
  // all of it arrived earlier.
  lemma SlotSplits(s: State, job: Job)
    requires Inv(s)
    ensures var i, e := Slot(Jobs(s.slice), job), Entry(job, s.arrivals);
            && (forall a :: 0 <= a < i ==> Precedes(s.slice[a], e))
            && (forall b :: i <= b < |s.slice| ==> Precedes(e, s.slice[b]))
  {
    var q, i := s.slice, Slot(Jobs(s.slice), job);
    forall a | 0 <= a < i ensures Precedes(q[a], Entry(job, s.arrivals)) {
      assert !Outranks(job, Jobs(q)[a]);
    }
    forall b | i <= b < |q| ensures Precedes(Entry(job, s.arrivals), q[b]) {
      assert Outranks(job, Jobs(q)[i]);
      assert b == i || Precedes(q[i], q[b]);
    }
  }

  lemma StepInv(s: State, op: Op)
    requires Inv(s)
    ensures Inv(Step(s, op))
  {
    if op.Put? {
      SlotSplits(s, op.job);
      PutSorted(s.slice, Slot(Jobs(s.slice), op.job), Entry(op.job, s.arrivals), Step(s, op).slice);
    }
  }

  lemma {:induction false} RunInv(s: State, ops: seq<Op>)
    requires Inv(s)
    ensures Inv(Run(s, ops))
    decreases |ops|
  {
    if ops != [] {
      StepInv(s, ops[0]);
      RunInv(Step(s, ops[0]), ops[1..]);
    }
  }

  // Forgetting the stamps gives exactly the job-level queue operations.
  lemma StepProjects(s: State, op: Op)
    ensures op.Put? ==> Jobs(Step(s, op).slice) == Insert(Jobs(s.slice), op.job)
    ensures op.Take? && s.slice != [] ==>
      Jobs(Step(s, op).slice) == Jobs(s.slice)[1..] && Step(s, op).out == s.out + [s.slice[0]]
  {
  }

  function Newcomer(op: Op, n: nat): multiset<Entry> {
    if op.Put? then multiset{Entry(op.job, n)} else multiset{}
  }

  lemma StepConserves(s: State, op: Op)
    ensures multiset(Step(s, op).slice) + multiset(Step(s, op).out)
         == multiset(s.slice) + multiset(s.out) + Newcomer(op, s.arrivals)
  {
    if op.Put? {
      PutKeeps(s.slice, Slot(Jobs(s.slice), op.job), Entry(op.job, s.arrivals));
    } else if s.slice != [] {
      TakeKeeps(s.slice);
      assert multiset(s.out + [s.slice[0]]) == multiset(s.out) + multiset{s.slice[0]};
    }
  }

  // Nothing is lost and nothing is duplicated.
  lemma {:induction false} RunConserves(s: State, ops: seq<Op>)
    ensures multiset(Run(s, ops).slice) + multiset(Run(s, ops).out)
         == multiset(s.slice) + multiset(s.out) + Accepted(ops, s.arrivals)
    decreases |ops|
  {
    if ops != [] {
      var t := Step(s, ops[0]);
      StepConserves(s, ops[0]);
      RunConserves(t, ops[1..]);
      assert Accepted(ops, s.arrivals) == Newcomer(ops[0], s.arrivals) + Accepted(ops[1..], t.arrivals);
    }
  }

  // The slice is the stable sort of what arrived and has not left: it is strictly
  // ordered by (priority, creation, arrival), and no other sequence with the same
  // entries is.
  lemma StableSort(ops: seq<Op>, other: seq<Entry>)
    ensures forall i, k :: 0 <= i < k < |Run(START, ops).slice| ==> Before(Run(START, ops).slice[i], Run(START, ops).slice[k])
    ensures multiset(Run(START, ops).slice) + multiset(Run(START, ops).out) == Accepted(ops, 0)
    ensures StrictlySorted(other) && multiset(other) == multiset(Run(START, ops).slice)
        ==> other == Run(START, ops).slice
  {
    RunInv(START, ops);
    RunConserves(START, ops);
    if StrictlySorted(other) && multiset(other) == multiset(Run(START, ops).slice) {
      StrictUnique(other, Run(START, ops).slice);
    }
  }

  lemma {:induction false} StrictUnique(a: seq<Entry>, b: seq<Entry>)
    requires StrictlySorted(a) && StrictlySorted(b) && multiset(a) == multiset(b)
    ensures a == b
    decreases |a|
  {
    SameMembers(a, b);
    if a != [] {
      StrictHeadsAgree(a, b);
      TailsAgree(a, b);
      StrictUnique(a[1..], b[1..]);
      assert a == [a[0]] + a[1..] && b == [b[0]] + b[1..];
    }
  }

  lemma StrictHeadsAgree(a: seq<Entry>, b: seq<Entry>)
    requires StrictlySorted(a) && StrictlySorted(b)
    requires a != [] && b != [] && forall x :: x in a <==> x in b
    ensures a[0] == b[0]
  {
    assert a[0] in b && b[0] in a;
    var i :| 0 <= i < |b| && b[i] == a[0];
    var k :| 0 <= k < |a| && a[k] == b[0];
    assert i == 0 || Precedes(b[0], b[i]);
    assert k == 0 || Precedes(a[0], a[k]);
  }

  // `a` was handed out before `b`.
  ghost predicate LeftBefore(out: seq<Entry>, a: Entry, b: Entry) {
    exists i, k :: 0 <= i < k < |out| && out[i] == a && out[k] == b
  }

  // b is still inside and a is inside too or gone, or b has left after a did.
  ghost predicate Ahead(s: State, a: Entry, b: Entry) {
    || (b in s.slice && b !in s.out && (a in s.slice || a in s.out))
    || LeftBefore(s.out, a, b)
  }

  lemma AheadPut(s: State, job: Job, a: Entry, b: Entry)
    requires Ahead(s, a, b)
    ensures Ahead(Step(s, Put(job)), a, b)
  {
    var q := s.slice;
    var i := Slot(Jobs(q), job);
    assert q == q[..i] + q[i..];
    assert forall e :: e in q ==> e in q[..i] + [Entry(job, s.arrivals)] + q[i..];
  }

  lemma AheadTake(s: State, a: Entry, b: Entry)
    requires Inv(s) && Precedes(a, b) && Ahead(s, a, b)
    ensures Ahead(Step(s, Take), a, b)
  {
    var q, t := s.slice, Step(s, Take);
    if q != [] {
      var h := q[0];
      assert q == [h] + t.slice;
      if LeftBefore(s.out, a, b) {
        var i, k :| 0 <= i < k < |s.out| && s.out[i] == a && s.out[k] == b;
        assert t.out[i] == a && t.out[k] == b;
      } else if b == h {
        assert a !in q by {
          if k :| 0 <= k < |q| && q[k] == a {
            assert k == 0 || Precedes(q[0], q[k]);
          }
        }
        var i :| 0 <= i < |s.out| && s.out[i] == a;
        assert t.out[i] == a && t.out[|s.out|] == b;
      } else {
        assert b in t.slice && b !in t.out;
        if a in q && a != h {
          assert a in t.slice;
        } else {
          assert a == h ==> t.out[|s.out|] == a;
        }
      }
    }
  }

  lemma {:induction false} AheadRun(s: State, ops: seq<Op>, a: Entry, b: Entry)
    requires Inv(s) && Precedes(a, b) && Ahead(s, a, b)
    ensures Ahead(Run(s, ops), a, b)
    decreases |ops|
  {
    if ops != [] {
      if ops[0].Put? { AheadPut(s, ops[0].job, a, b); } else { AheadTake(s, a, b); }
      StepInv(s, ops[0]);
      AheadRun(Step(s, ops[0]), ops[1..], a, b);
    }
  }

  lemma {:induction false} RunConcat(s: State, xs: seq<Op>, ys: seq<Op>)
    ensures Run(s, xs + ys) == Run(Run(s, xs), ys)
    decreases |xs|
  {
    if xs == [] {
      assert xs + ys == ys;
    } else {
      assert (xs + ys)[1..] == xs[1..] + ys;
      RunConcat(Step(s, xs[0]), xs[1..], ys);
    }
  }

  // Each arrival is accepted once, so an entry in the slice has not left yet.
  lemma {:induction false} AcceptedOnce(ops: seq<Op>, n: nat, e: Entry)
    ensures Accepted(ops, n)[e] <= 1
    ensures e.arrival < n ==> Accepted(ops, n)[e] == 0
  {
    if ops != [] {
      AcceptedOnce(ops[1..], if ops[0].Put? then n + 1 else n, e);
    }
  }

  // No overtaking: if a outranks b (or ties with it and came first) while both are
  // present, then in every continuation in which b has left, a left earlier.
  lemma NoOvertaking(before: seq<Op>, after: seq<Op>, a: Entry, b: Entry)
    requires a in Run(START, before).slice && b in Run(START, before).slice
    requires Before(a, b)
    ensures b in Run(START, before + after).out ==> LeftBefore(Run(START, before + after).out, a, b)
  {
    var s := Run(START, before);
    RunInv(START, before);
    StillInside(before, b);
    PrecedesMeans(a, b);
    AheadRun(s, after, a, b);
    RunConcat(START, before, after);
    var t := Run(s, after);
    RunConserves(START, before + after);
    if b in t.out && b in t.slice {
      StillInside(before + after, b);
    }
  }

  lemma StillInside(ops: seq<Op>, e: Entry)
    requires e in Run(START, ops).slice
    ensures e !in Run(START, ops).out
  {
    var s := Run(START, ops);
    RunConserves(START, ops);
    AcceptedOnce(ops, 0, e);
    assert multiset(START.slice) == multiset{} && multiset(START.out) == multiset{};
    var all := multiset(s.slice) + multiset(s.out);
    assert all == Accepted(ops, 0);
    assert multiset(s.slice)[e] >= 1 && all[e] <= 1;
    assert all[e] == multiset(s.slice)[e] + multiset(s.out)[e];
    assert multiset(s.out)[e] == 0;
  }
}
