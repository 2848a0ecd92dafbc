// How long a job can go on failing: the life of one row between its creation (or a
// manual retry) and the nack that fails it for good.
module RetryBudget {
  import opened Models
  import opened Tables

  // Everything a live row goes through; only the last consumes budget.
  datatype RowOp = Claim(at: Time) | Preempted(at: Time) | Recovered(at: Time) | Nack(at: Time)

  function Apply(row: Row, op: RowOp): Row {
    match op
    case Claim(at) => Stamp(row, Processing, at)
    case Preempted(at) => RequeuedRow(row, at)
    case Recovered(at) => Stamp(row, Pending, at)
    case Nack(at) => NackedRow(row, row.retries, row.maxRetries, at)
  }

  // On the columns.
  lemma OpMeans(row: Row, at: Time)
    ensures Apply(row, Claim(at)) == row.(status := Processing, updatedAt := at)
    ensures Apply(row, Preempted(at)) == row.(status := Pending, updatedAt := at)
    ensures Apply(row, Recovered(at)) == row.(status := Pending, updatedAt := at)
    ensures Apply(row, Nack(at)) ==
      if row.retries + 1 >= row.maxRetries
      then row.(status := Failed, retries := row.retries + 1, updatedAt := at, processedAt := Some(at))
      else row.(status := Pending, retries := row.retries + 1, updatedAt := at)
  {
  }

  function Play(row: Row, ops: seq<RowOp>): Row
    decreases |ops|
  {
    if ops == [] then row else Play(Apply(row, ops[0]), ops[1..])
  }

  // Under single ownership nobody touches a row that has already failed.
  predicate Legal(row: Row, ops: seq<RowOp>)
    decreases |ops|
  {
    ops == [] || (!row.status.Terminal() && Legal(Apply(row, ops[0]), ops[1..]))
  }

  function Nacks(ops: seq<RowOp>): nat {
    if ops == [] then 0 else (if ops[0].Nack? then 1 else 0) + Nacks(ops[1..])
  }

  // Nacks left before the row fails; a spent or non-positive limit still allows one.
  function Budget(row: Row): nat {
    if row.maxRetries - row.retries > 1 then row.maxRetries - row.retries else 1
  }

  // However claims, preemptions and recoveries interleave, a live row fails at
  // exactly its Budget-th nack, and its counter counts every nack.
  lemma {:induction false} FailsAtBudget(row: Row, ops: seq<RowOp>)
    requires !row.status.Terminal() && Legal(row, ops)
    ensures Nacks(ops) <= Budget(row)
    ensures Play(row, ops).status == Failed <==> Nacks(ops) == Budget(row)
    ensures Play(row, ops).retries == row.retries + Nacks(ops)
    ensures Play(row, ops).maxRetries == row.maxRetries
    decreases |ops|
  {
    if ops != [] {
      var next := Apply(row, ops[0]);
      if next.status.Terminal() {
        assert Legal(next, ops[1..]) && ops[1..] == [];
      } else {
        FailsAtBudget(next, ops[1..]);
      }
    }
  }

  // A manual retry of a job that exhausted a positive limit hands out exactly
  // `extra` nacks on Postgres, and the old limit plus `extra` on SQLite.
  lemma ManualRetryBudget(backend: Backend, row: Row, before: seq<RowOp>, extra: nat, now: Time, after: seq<RowOp>)
    requires !row.status.Terminal() && 0 <= row.retries < row.maxRetries && extra > 0
    requires Legal(row, before) && Play(row, before).status == Failed
    requires Legal(ResetRow(backend, Play(row, before), extra, now), after)
    ensures var again := Play(ResetRow(backend, Play(row, before), extra, now), after);
            var allowance := if backend.Sqlite? then row.maxRetries + extra else extra;
            Nacks(after) <= allowance && (again.status == Failed <==> Nacks(after) == allowance)
  {
    FailsAtBudget(row, before);
    FailsAtBudget(ResetRow(backend, Play(row, before), extra, now), after);
  }

  // The queue test expects a limit of 2 to survive two nacks; the code fails it
  // at the second.
  lemma LimitTwoFailsAtSecondNack(row: Row, a: Time, b: Time)
    requires row.status == Processing && row.retries == 0 && row.maxRetries == 2
    ensures Play(row, [Nack(a)]).status == Pending
    ensures Play(row, [Nack(a), Claim(b), Nack(b)]).status == Failed
  {
    var one := Apply(row, Nack(a));
    var two := Apply(one, Claim(b));
    assert [Nack(a)][1..] == [];
    assert Play(row, [Nack(a)]) == Play(one, []);
    assert [Nack(a), Claim(b), Nack(b)][1..] == [Claim(b), Nack(b)];
    assert [Claim(b), Nack(b)][1..] == [Nack(b)];
    assert [Nack(b)][1..] == [];
    assert Play(two, [Nack(b)]) == Play(Apply(two, Nack(b)), []);
    assert Play(one, [Claim(b), Nack(b)]) == Play(two, [Nack(b)]);
  }
}
