// The token bucket inside the running server, and when a worker can get stuck waiting
// for a token.
module Tokens {
  import opened Models
  import opened Tables
  import opened Lifecycle
  import Supervision
  import opened Theorems
  import opened Runs

  // The bucket stays between empty and full; and with a single worker a rate-limited
  // job, once taken, always finds the token that was seen before it was taken.
  ghost predicate TokensOk(c: Config, s: State) {
    && s.tokens <= c.burst
    && (s.tokens >= 0 || s.tokens == c.burst)
    && (c.workers == 1 && |s.ws| == 1 && (s.ws[0].pc.TakeRate? || s.ws[0].pc.Spin?) ==> s.tokens > 0)
  }

  lemma TokensStep(c: Config, s: State, ev: Event)
    requires Sane(c, s) && Enabled(c, s, ev) && TokensOk(c, s)
    ensures TokensOk(c, Fire(c, s, ev))
  {
    if ev.Work? {
      TokensMove(c, s, ev.i, ev.act);
      TokensApply(c, s, ev.i, Perform(c, s, ev.i, ev.act));
    }
  }

  lemma TokensMove(c: Config, s: State, i: nat, act: Act)
    requires i < |s.ws| && ActEnabled(c, s, i, act)
    ensures var e := Perform(c, s, i, act);
            && (e.spend ==> s.tokens > 0 && e.w.pc.Got?)
            && (e.w.pc.TakeRate? ==> s.tokens > 0)
            && (e.w.pc.Spin? ==> s.ws[i].pc.TakeRate? || s.ws[i].pc.Spin?)
  {
  }

  lemma TokensApply(c: Config, s: State, i: nat, e: Effect)
    requires i < |s.ws| && TokensOk(c, s)
    requires e.spend ==> s.tokens > 0 && e.w.pc.Got?
    requires e.w.pc.TakeRate? ==> s.tokens > 0
    requires e.w.pc.Spin? ==> s.ws[i].pc.TakeRate? || s.ws[i].pc.Spin?
    ensures TokensOk(c, Apply(c, s, i, e))
  {
  }

  lemma {:induction false} RunTokens(c: Config, ss: seq<State>, evs: seq<Event>, k: nat)
    requires Run(c, ss, evs) && k < |ss|
    ensures TokensOk(c, ss[k])
  {
    if k > 0 {
      RunTokens(c, ss, evs, k - 1);
      RunSane(c, ss, evs, k - 1);
      TokensStep(c, ss[k - 1], evs[k - 1]);
    }
  }

  // A worker has taken a rate-limited job and finds no token to pay for it.
  predicate Spinning(s: State) {
    s.tokens <= 0 && exists i :: 0 <= i < |s.ws| && s.ws[i].pc.Spin?
  }

  ghost predicate NeverSpins(workers: nat) {
    forall c: Config, ss, evs, k :: c.workers == workers && Run(c, ss, evs) && 0 <= k < |ss| ==> !Spinning(ss[k])
  }

  // A worker that found the priority queue empty goes for the rate-limited channel.
  lemma SeeToken(c: Config, r: Trace, i: nat) returns (n: Trace)
    requires r.Of(c) && i < |r.Last().ws| && r.Last().ws[i].pc.Top? && r.Last().ws[i].slot.None?
    requires !r.Last().crew.stopped && r.Last().q.prio == [] && r.Last().tokens > 0
    ensures n.At(c, r.Last().(ws := r.Last().ws[i := r.Last().ws[i].(pc := TakeRate)]))
  {
    var a := LookIn(c, r, i);
    n := Then(c, a, Work(i, CheckToken));
    assert n.Last().ws == r.Last().ws[i := r.Last().ws[i].(pc := TakeRate)];
  }

  lemma TakeJob(c: Config, r: Trace, i: nat) returns (n: Trace)
    requires r.Of(c) && i < |r.Last().ws| && r.Last().ws[i].pc.TakeRate? && r.Last().q.rate != []
    ensures var s := r.Last();
            n.At(c, s.(ws := s.ws[i := s.ws[i].(pc := Spin(s.q.rate[0]))], q := s.q.(rate := s.q.rate[1..])))
  {
    n := Then(c, r, Work(i, ReceiveRate(true)));
  }

  lemma Pay(c: Config, r: Trace, i: nat) returns (n: Trace)
    requires r.Of(c) && i < |r.Last().ws| && r.Last().ws[i].pc.Spin? && r.Last().tokens > 0
    ensures var s := r.Last();
            n.At(c, s.(ws := s.ws[i := s.ws[i].(pc := Got(s.ws[i].pc.job))], tokens := s.tokens - 1))
  {
    n := Then(c, r, Work(i, Spend));
  }

  // A server with one token left and two rate-limited jobs.
  lemma TwoWait(c: Config) returns (r: Trace)
    requires c.rateCap >= 2 && c.burst == 1
    ensures r.Of(c) && r.Last().ws == seq(c.workers, _ => Worker(Top, None, Alive, None)) && |r.Last().q.rate| == 2
    ensures r.Last().tokens == 1 && r.Last().q.prio == [] && !r.Last().crew.stopped && r.Last().crew.refilling
  {
    var open := Open(c);
    var one := Submit(c, open, 0, RateLimited);
    r := Submit(c, one, 1, RateLimited);
  }

  // Two workers see the same last token; both take a job; one token pays for one job.
  lemma TwoCanSpin(workers: nat) returns (c: Config, r: Trace)
    requires workers >= 2
    ensures c.workers == workers && r.Of(c) && Spinning(r.Last()) && r.Last().crew.refilling
  {
    c := Config(workers, 1, 2, 1, Sqlite);
    var two := TwoWait(c);
    var a := SeeToken(c, two, 0);
    var b := SeeToken(c, a, 1);
    var d := TakeJob(c, b, 0);
    var e := Pay(c, d, 0);
    r := TakeJob(c, e, 1);
    assert r.Last().ws[1].pc.Spin?;
  }

  // With one worker a rate-limited job in hand always finds its token; with more workers
  // it need not.
  lemma NeverSpinsIffOneWorker(workers: nat)
    ensures NeverSpins(workers) <==> workers <= 1
  {
    if workers <= 1 {
      forall c: Config, ss, evs, k | c.workers == workers && Run(c, ss, evs) && 0 <= k < |ss| ensures !Spinning(ss[k]) {
        RunTokens(c, ss, evs, k);
        RunSane(c, ss, evs, k);
      }
    } else {
      var c, r := TwoCanSpin(workers);
      assert Run(c, r.ss, r.evs) && Spinning(r.ss[|r.ss| - 1]);
    }
  }

  // ---- shutdown -----------------------------------------------------------------------

  // Worker i waits for a token that no ticker will bring.
  predicate Stuck(s: State, i: nat) {
    !s.crew.refilling && s.tokens <= 0 && i < |s.ws| && s.ws[i].pc.Spin?
  }

  lemma StuckMove(c: Config, s: State, i: nat, act: Act)
    requires i < |s.ws| && ActEnabled(c, s, i, act)
    ensures s.tokens <= 0 ==> !Perform(c, s, i, act).spend
    ensures s.tokens <= 0 && s.ws[i].pc.Spin? ==> Perform(c, s, i, act).w == s.ws[i]
  {
  }

  lemma StuckStep(c: Config, s: State, ev: Event, i: nat)
    requires Sane(c, s) && Enabled(c, s, ev) && !ev.Crash? && Stuck(s, i)
    ensures Stuck(Fire(c, s, ev), i)
  {
    if ev.Work? {
      StuckMove(c, s, ev.i, ev.act);
    } else if ev.Restart? {
      Supervision.RestartAccounted(c, s);
    }
  }

  // Once the refill has ended a worker without a token waits until the process is killed:
  // its loop never ends, and shutdown waits for it in vain.
  lemma {:induction false} StuckForever(c: Config, ss: seq<State>, evs: seq<Event>, k: nat, m: nat, i: nat)
    requires Run(c, ss, evs) && k <= m < |ss| && Stuck(ss[k], i)
    requires forall x :: k <= x < m ==> !evs[x].Crash?
    ensures Stuck(ss[m], i) && !ss[m].ws[i].pc.Dead?
    decreases m
  {
    if k < m {
      StuckForever(c, ss, evs, k, m - 1, i);
      RunSane(c, ss, evs, m - 1);
      StuckStep(c, ss[m - 1], evs[m - 1], i);
    }
  }

  ghost predicate CanGetStuck(workers: nat) {
    exists c: Config, r: Trace, i: nat :: c.workers == workers && r.Of(c) && Stuck(r.Last(), i)
  }

  lemma NeverStuck(c: Config, r: Trace, i: nat)
    requires c.workers <= 1 && r.Of(c)
    ensures !Stuck(r.Last(), i)
  {
    RunTokens(c, r.ss, r.evs, |r.ss| - 1);
    RunSane(c, r.ss, r.evs, |r.ss| - 1);
  }

  // Shutdown can hang exactly when there are at least two workers.
  lemma ShutdownHangsIffTwoWorkers(workers: nat)
    ensures CanGetStuck(workers) <==> workers >= 2
  {
    if workers >= 2 {
      var c, r := TwoCanSpin(workers);
      var n := Then(c, r, EndRefill);
      var i: nat :| i < |r.Last().ws| && r.Last().ws[i].pc.Spin?;
      assert c.workers == workers && n.Of(c) && Stuck(n.Last(), i);
    } else {
      forall c: Config, r: Trace, i: nat | c.workers == workers && r.Of(c) ensures !Stuck(r.Last(), i) {
        NeverStuck(c, r, i);
      }
    }
  }
}
