// The rate-limited queue: a MemoryQueue whose jobs wait for a token before they are
// handed out.
module Throttle {
  import opened Models
  import opened Bucket
  import opened JobStore
  import opened FifoQueue

  // Starved: the job has been taken from the channel but no token has come yet.
  datatype Poll = Nothing | Served(job: Job) | Starved(job: Job)

  function RefillMany(tokens: int, burst: int, ticks: nat): int
    decreases ticks
  {
    if ticks == 0 then tokens else RefillMany(Refill(tokens, burst), burst, ticks - 1)
  }

  // The spin loop: ticks[k] refill ticks arrive during the k-th sleep. The result is
  // the token count after the spend, or None if the sleeps observed were not enough.
  function Spin(tokens: int, burst: int, ticks: seq<nat>): Option<int>
    decreases |ticks|
  {
    if tokens > 0 then Some(tokens - 1)
    else if ticks == [] then None
    else Spin(RefillMany(tokens, burst, ticks[0]), burst, ticks[1..])
  }

  predicate InBucket(tokens: int, burst: int) {
    tokens <= burst && (tokens >= 0 || tokens == burst)
  }

  lemma {:induction false} RefillManyBounds(tokens: int, burst: int, ticks: nat)
    requires InBucket(tokens, burst)
    ensures InBucket(RefillMany(tokens, burst, ticks), burst)
    ensures RefillMany(tokens, burst, ticks) >= tokens
    ensures RefillMany(tokens, burst, ticks) > 0 <==> tokens > 0 || (burst > 0 && ticks > 0)
    decreases ticks
  {
    if ticks > 0 {
      RefillManyBounds(Refill(tokens, burst), burst, ticks - 1);
    }
  }

  // A taken job is eventually served exactly when a token is there or a tick comes to
  // a bucket that can hold one; it never drives the bucket below empty.
  lemma {:induction false} SpinServes(tokens: int, burst: int, ticks: seq<nat>)
    requires InBucket(tokens, burst)
    ensures Spin(tokens, burst, ticks).Some? <==> tokens > 0 || (burst > 0 && exists k :: 0 <= k < |ticks| && ticks[k] > 0)
    ensures Spin(tokens, burst, ticks).Some? ==> InBucket(Spin(tokens, burst, ticks).value, burst)
    ensures tokens > 0 ==> Spin(tokens, burst, ticks) == Some(tokens - 1)
    decreases |ticks|
  {
    if tokens <= 0 && ticks != [] {
      RefillManyBounds(tokens, burst, ticks[0]);
      SpinServes(RefillMany(tokens, burst, ticks[0]), burst, ticks[1..]);
      assert forall k :: 0 < k < |ticks| ==> ticks[k] == ticks[1..][k - 1];
      assert forall k :: 0 <= k < |ticks| - 1 ==> ticks[1..][k] == ticks[k + 1];
    }
  }

  class RateLimitedQueue {
    const inner: MemoryQueue
    const rate: int
    const burst: int
    var tokens: int
    var refillStopped: bool      // stopRefill is closed

    ghost predicate Valid()
      reads this, inner, inner.store
    {
      inner.Valid() && InBucket(tokens, burst)
    }

    // Any other rate makes the interval division or the ticker panic at start-up.
    constructor (store: Store, capacity: nat, rate: int, burst: int)
      requires store.Valid() && 0 < rate <= MINUTE
      ensures Valid() && fresh(inner) && inner.store == store && inner.jobs == []
      ensures tokens == burst == this.burst && !refillStopped
    {
      inner := new MemoryQueue(store, capacity);
      this.rate, this.burst, tokens, refillStopped := rate, burst, burst, false;
    }

    method Tick()
      requires Valid()
      modifies `tokens
      ensures Valid() && tokens == Refill(old(tokens), burst)
    {
      tokens := Refill(tokens, burst);
    }

    method AvailableTokens() returns (n: int)
      ensures n == tokens
    {
      n := tokens;
    }

    method DequeueOrWait(timer: bool, ticks: seq<nat>) returns (r: Poll)
      requires Valid()
      modifies `tokens, inner`jobs, inner`delivered
      ensures Valid()
      ensures r.Nothing? <==> timer || old(inner.jobs) == []
      ensures r.Nothing? ==> tokens == old(tokens) && inner.jobs == old(inner.jobs)
      ensures !r.Nothing? ==> old(inner.jobs) == [r.job] + inner.jobs
      ensures r.Served? ==> Spin(old(tokens), burst, ticks) == Some(tokens)
      ensures r.Starved? ==> Spin(old(tokens), burst, ticks) == None
    {
      var job := inner.DequeueOrWait(timer);
      if job.None? { return Nothing; }
      var k := 0;
      while tokens <= 0 && k < |ticks|
        modifies `tokens
        invariant k <= |ticks| && InBucket(tokens, burst)
        invariant Spin(old(tokens), burst, ticks) == Spin(tokens, burst, ticks[k..])
      {
        var n := ticks[k];
        ghost var before := tokens;
        while n > 0
          modifies `tokens
          invariant InBucket(tokens, burst)
          invariant RefillMany(before, burst, ticks[k]) == RefillMany(tokens, burst, n)
        {
          tokens := Refill(tokens, burst);
          n := n - 1;
        }
        assert ticks[k..][1..] == ticks[k + 1..];
        k := k + 1;
      }
      if tokens <= 0 { return Starved(job.value); }
      tokens := tokens - 1;
      r := Served(job.value);
    }

    // Unlike the other queues' Close this one is not idempotent: closing stopRefill a
    // second time panics before the inner queue is reached.
    method Close() returns (panicked: bool)
      requires Valid()
      modifies `refillStopped, inner`closed, inner`jobsClosed
      ensures Valid()
      ensures panicked <==> old(refillStopped)
      ensures refillStopped && (!panicked ==> inner.closed)
      ensures panicked ==> inner.closed == old(inner.closed)
    {
      if refillStopped { return true; }
      refillStopped := true;
      inner.Close();
      panicked := false;
    }
  }
}
