// The rate limiter over time: refill ticks and spend attempts of any number of
// consumers, in the order the mutex admits them.
module RateBound {
  import opened Models
  import opened Bucket

  datatype Kind = Tick | Try
  datatype Event = Event(at: Time, kind: Kind)

  // refills counts the ticks that found room, dispatched the tries that found a token.
  datatype State = State(tokens: int, refills: nat, dispatched: nat)

  function Fire(s: State, burst: int, ev: Event): State {
    match ev.kind
    case Tick =>
      State(Refill(s.tokens, burst), if s.tokens < burst then s.refills + 1 else s.refills, s.dispatched)
    case Try =>
      if s.tokens > 0 then State(s.tokens - 1, s.refills, s.dispatched + 1) else s
  }

  function Run(s: State, burst: int, evs: seq<Event>): State {
    if evs == [] then s else Fire(Run(s, burst, evs[..|evs| - 1]), burst, evs[|evs| - 1])
  }

  function Start(burst: int): State { State(burst, 0, 0) }

  function Ticks(evs: seq<Event>): nat {
    if evs == [] then 0 else Ticks(evs[..|evs| - 1]) + (if evs[|evs| - 1].kind.Tick? then 1 else 0)
  }

  // Every dispatched job was paid for: by the initial burst or by an accepted refill.
  // A bucket that starts non-negative never goes below zero or above its burst.
  lemma {:induction false} BucketLedger(burst: int, evs: seq<Event>)
    ensures var s := Run(Start(burst), burst, evs);
            && s.dispatched == burst + s.refills - s.tokens
            && s.tokens <= burst && (burst >= 0 ==> s.tokens >= 0) && (burst <= 0 ==> s.dispatched == s.refills == 0)
  {
    if evs != [] {
      BucketLedger(burst, evs[..|evs| - 1]);
    }
  }

  lemma {:induction false} RunSplit(s: State, burst: int, a: seq<Event>, b: seq<Event>)
    ensures Run(s, burst, a + b) == Run(Run(s, burst, a), burst, b)
  {
    if b == [] {
      assert a + b == a;
    } else {
      assert (a + b)[..|a + b| - 1] == a + b[..|b| - 1];
      RunSplit(s, burst, a, b[..|b| - 1]);
    }
  }

  lemma {:induction false} RefillsAreTicks(s: State, burst: int, evs: seq<Event>)
    ensures Run(s, burst, evs).refills <= s.refills + Ticks(evs)
  {
    if evs != [] {
      RefillsAreTicks(s, burst, evs[..|evs| - 1]);
    }
  }

  // time.Minute / time.Duration(rate)
  function Interval(rate: nat): nat
    requires rate > 0
  {
    MINUTE / rate
  }

  // An ideal ticker: consecutive ticks are at least an interval apart.
  ghost predicate Paced(evs: seq<Event>, interval: nat) {
    forall i, k :: 0 <= i < k < |evs| && evs[i].kind.Tick? && evs[k].kind.Tick? ==> evs[k].at >= evs[i].at + interval
  }

  // All of it happens in the half-open window [from, from + width).
  ghost predicate Within(evs: seq<Event>, from: Time, width: nat) {
    forall i :: 0 <= i < |evs| ==> from <= evs[i].at < from + width
  }

  // n paced ticks span n - 1 intervals.
  lemma {:induction false} TicksSpan(evs: seq<Event>, interval: nat, from: Time, until: Time)
    requires Paced(evs, interval)
    requires forall i :: 0 <= i < |evs| && evs[i].kind.Tick? ==> from <= evs[i].at < until
    ensures Ticks(evs) > 0 ==> (Ticks(evs) - 1) * interval < until - from
  {
    if evs != [] {
      var n := |evs| - 1;
      var p := evs[..n];
      if evs[n].kind.Tick? {
        forall i | 0 <= i < |p| && p[i].kind.Tick? ensures from <= p[i].at < evs[n].at - interval + 1 {
          assert evs[i].kind.Tick?;
        }
        TicksSpan(p, interval, from, evs[n].at - interval + 1);
        if Ticks(p) > 0 {
          assert (Ticks(p) - 1) * interval + interval == Ticks(p) * interval;
        }
      } else {
        TicksSpan(p, interval, from, until);
      }
    }
  }

  // Whether a minute has room for at most rate + 1 ticks, decided by the remainder the
  // interval division leaves behind.
  predicate Fits(rate: nat)
    requires rate > 0
  {
    MINUTE % rate <= MINUTE / rate
  }

  lemma QuotientAtLeast(a: nat, b: nat, c: nat)
    requires b > 0 && b * c <= a
    ensures a / b >= c
  {
    var q := a / b;
    assert a == b * q + a % b;
    Scale(q + 1, c, b);
    assert (q + 1) * b == b * q + b && c * b == b * c;
  }

  // rate^2 <= 60e9 is enough.
  lemma SquareFits(rate: nat)
    requires rate > 0 && rate * rate <= MINUTE
    ensures Fits(rate)
  {
    QuotientAtLeast(MINUTE, rate, rate);
  }

  lemma FitsMeansRoom(rate: nat)
    requires rate > 0
    ensures Fits(rate) <==> MINUTE <= (rate + 1) * Interval(rate)
  {
    assert MINUTE == rate * Interval(rate) + MINUTE % rate;
    assert (rate + 1) * Interval(rate) == rate * Interval(rate) + Interval(rate);
  }

  lemma FewTicks(rate: nat, evs: seq<Event>, from: Time)
    requires rate > 0 && Interval(rate) > 0 && Fits(rate)
    requires Paced(evs, Interval(rate)) && Within(evs, from, MINUTE)
    ensures Ticks(evs) <= rate + 1
  {
    TicksSpan(evs, Interval(rate), from, from + MINUTE);
    FitsMeansRoom(rate);
    Scale(rate + 1, Ticks(evs) - 1, Interval(rate));
  }

  lemma Scale(a: int, b: int, m: nat)
    ensures a <= b ==> a * m <= b * m
  {
  }

  // In any minute of any run at most burst + rate + 1 jobs are dispatched.
  lemma RateLimit(rate: nat, burst: nat, before: seq<Event>, window: seq<Event>, from: Time)
    requires rate > 0 && Interval(rate) > 0 && Fits(rate)
    requires Paced(window, Interval(rate)) && Within(window, from, MINUTE)
    ensures Run(Start(burst), burst, before + window).dispatched - Run(Start(burst), burst, before).dispatched
         <= burst + rate + 1
  {
    var s := Run(Start(burst), burst, before);
    RunSplit(Start(burst), burst, before, window);
    BucketLedger(burst, before);
    BucketLedger(burst, before + window);
    RefillsAreTicks(s, burst, window);
    FewTicks(rate, window, from);
  }

  // ---- the condition is exact ------------------------------------------------------

  function Tries(n: nat): seq<Event> {
    if n == 0 then [] else Tries(n - 1) + [Event(0, Try)]
  }

  // A tick and a consumer at each of the first n multiples of the interval.
  function Beats(n: nat, interval: nat): seq<Event> {
    if n == 0 then []
    else Beats(n - 1, interval) + [Event((n - 1) * interval, Tick)] + [Event((n - 1) * interval, Try)]
  }

  lemma {:induction false} RunSnoc(s: State, burst: int, evs: seq<Event>, ev: Event)
    ensures Run(s, burst, evs + [ev]) == Fire(Run(s, burst, evs), burst, ev)
  {
    assert (evs + [ev])[..|evs + [ev]| - 1] == evs;
  }

  lemma {:induction false} TriesDrain(burst: nat, n: nat)
    requires n <= burst
    ensures Run(Start(burst), burst, Tries(n)) == State(burst - n, 0, n)
    ensures forall i :: 0 <= i < |Tries(n)| ==> Tries(n)[i] == Event(0, Try)
  {
    if n > 0 {
      TriesDrain(burst, n - 1);
      RunSnoc(Start(burst), burst, Tries(n - 1), Event(0, Try));
    }
  }

  lemma {:induction false} BeatsDispatch(burst: nat, n: nat, interval: nat, d: nat)
    requires burst > 0
    ensures Run(State(0, 0, d), burst, Beats(n, interval)) == State(0, n, d + n)
  {
    if n > 0 {
      BeatsDispatch(burst, n - 1, interval, d);
      var b, t := Beats(n - 1, interval), (n - 1) * interval;
      RunSnoc(State(0, 0, d), burst, b, Event(t, Tick));
      RunSnoc(State(0, 0, d), burst, b + [Event(t, Tick)], Event(t, Try));
    }
  }

  lemma {:induction false} BeatsPaced(n: nat, interval: nat)
    ensures Paced(Beats(n, interval), interval)
    ensures forall i :: 0 <= i < |Beats(n, interval)| ==> 0 <= Beats(n, interval)[i].at <= (if n == 0 then 0 else n - 1) * interval
  {
    if n > 0 {
      BeatsPaced(n - 1, interval);
      var b, t := Beats(n - 1, interval), (n - 1) * interval;
      var c := Beats(n, interval);
      assert |c| == |b| + 2 && c[..|b|] == b && c[|b|] == Event(t, Tick) && c[|b| + 1] == Event(t, Try);
      assert n > 1 ==> (n - 2) * interval + interval == t;
      forall i | 0 <= i < |c| ensures 0 <= c[i].at <= t {
        if i < |b| { assert c[i] == b[i]; Scale(if n == 1 then 0 else n - 2, n - 1, interval); }
      }
      forall i, k | 0 <= i < k < |c| && c[i].kind.Tick? && c[k].kind.Tick? ensures c[k].at >= c[i].at + interval {
        assert i < |b| && c[i] == b[i];
        if k < |b| { assert c[k] == b[k]; }
        assert n > 1 by { assert |b| > 0; }
      }
    }
  }

  ghost predicate Window(evs: seq<Event>, rate: nat)
    requires rate > 0
  {
    Paced(evs, Interval(rate)) && exists from :: Within(evs, from, MINUTE)
  }

  // The bound burst + rate + 1 holds of every minute of every run exactly when the
  // interval division leaves a small enough remainder (or the bucket holds nothing).
  lemma RateLimitExact(rate: nat, burst: nat)
    requires rate > 0 && Interval(rate) > 0
    ensures Fits(rate) || burst == 0 <==>
      forall before, window :: Window(window, rate) ==>
        Run(Start(burst), burst, before + window).dispatched - Run(Start(burst), burst, before).dispatched
          <= burst + rate + 1
  {
    if Fits(rate) {
      forall before, window | Window(window, rate)
        ensures Run(Start(burst), burst, before + window).dispatched - Run(Start(burst), burst, before).dispatched
             <= burst + rate + 1
      {
        var from :| Within(window, from, MINUTE);
        RateLimit(rate, burst, before, window, from);
      }
    } else if burst > 0 {
      TooManyTicks(rate, burst);
    } else {
      forall before: seq<Event>, window: seq<Event>
        ensures Run(Start(burst), burst, before + window).dispatched == 0
      {
        BucketLedger(burst, before + window);
      }
    }
  }

  lemma TooManyTicks(rate: nat, burst: nat)
    requires rate > 0 && Interval(rate) > 0 && burst > 0 && !Fits(rate)
    ensures var w := Tries(burst) + Beats(rate + 2, Interval(rate));
            Window(w, rate) && Run(Start(burst), burst, [] + w).dispatched - Run(Start(burst), burst, []).dispatched
              == burst + rate + 2
  {
    Overfull(rate, burst);
    assert Run(Start(burst), burst, []).dispatched == 0;
    BusyMinute(burst, rate + 2, Interval(rate));
  }

  lemma BusyMinute(burst: nat, n: nat, interval: nat)
    requires burst > 0
    ensures Run(Start(burst), burst, [] + (Tries(burst) + Beats(n, interval))).dispatched == burst + n
  {
    var a, b := Tries(burst), Beats(n, interval);
    assert [] + (a + b) == a + b;
    RunSplit(Start(burst), burst, a, b);
    TriesDrain(burst, burst);
    BeatsDispatch(burst, n, interval, burst);
  }

  // Tries in front disturb neither the pace nor the window of what follows.
  lemma TriesInFront(a: seq<Event>, b: seq<Event>, interval: nat)
    requires forall i :: 0 <= i < |a| ==> a[i] == Event(0, Try)
    requires Paced(b, interval) && Within(b, 0, MINUTE)
    ensures Paced(a + b, interval) && Within(a + b, 0, MINUTE)
  {
    var w := a + b;
    forall i | 0 <= i < |w| ensures w[i] == if i < |a| then Event(0, Try) else b[i - |a|] { }
  }

  lemma Overfull(rate: nat, burst: nat)
    requires rate > 0 && Interval(rate) > 0 && !Fits(rate)
    ensures Window(Tries(burst) + Beats(rate + 2, Interval(rate)), rate)
  {
    var a, b := Tries(burst), Beats(rate + 2, Interval(rate));
    TriesDrain(burst, burst);
    BeatsPaced(rate + 2, Interval(rate));
    FitsMeansRoom(rate);
    TriesInFront(a, b, Interval(rate));
  }
}
