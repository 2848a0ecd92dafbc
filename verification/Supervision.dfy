// Worker deaths and restarts: no death signal is ever discarded, and no worker id
// is ever restarted while its loop still runs.
module Supervision {
  import opened Lifecycle

  predicate HeldBySupervisor(sup: Supervisor, i: nat) {
    (sup.Holding? || sup.QuitHolding?) && sup.id == i
  }

  // Every dead loop is either announced in the channel or in the supervisor's hands,
  // never both and never twice; nothing else is.
  ghost predicate Accounted(c: Config, s: State) {
    && |s.ws| == c.workers
    && (forall a, b :: 0 <= a < b < |s.crew.died| ==> s.crew.died[a] != s.crew.died[b])
    && (forall a :: 0 <= a < |s.crew.died| ==>
          s.crew.died[a] < |s.ws| && s.ws[s.crew.died[a]].pc.Dead? && !HeldBySupervisor(s.crew.sup, s.crew.died[a]))
    && (forall i :: 0 <= i < |s.ws| && s.ws[i].pc.Dead? ==> i in s.crew.died || HeldBySupervisor(s.crew.sup, i))
    && (forall i: nat :: HeldBySupervisor(s.crew.sup, i) ==> i < |s.ws| && s.ws[i].pc.Dead?)
    && (s.crew.sup.Quit? || s.crew.sup.QuitHolding? ==> s.crew.stopped)
  }

  // Distinct numbers below n that all avoid x are fewer than n.
  lemma Pigeonhole(q: seq<nat>, n: nat, x: nat)
    requires forall a, b :: 0 <= a < b < |q| ==> q[a] != q[b]
    requires forall a :: 0 <= a < |q| ==> q[a] < n && q[a] != x
    requires x < n
    ensures |q| < n
  {
    var members := set a | 0 <= a < |q| :: q[a];
    DistinctSize(q);
    assert members <= UpTo(n) - {x};
    SubsetSize(members, UpTo(n) - {x});
  }

  ghost function UpTo(n: nat): (r: set<nat>)
    ensures forall k: nat :: k in r <==> k < n
    ensures |r| == n
  {
    if n == 0 then {} else UpTo(n - 1) + {n - 1}
  }

  lemma {:induction false} DistinctSize(q: seq<nat>)
    requires forall a, b :: 0 <= a < b < |q| ==> q[a] != q[b]
    ensures |set a | 0 <= a < |q| :: q[a]| == |q|
  {
    if q != [] {
      var p := q[..|q| - 1];
      DistinctSize(p);
      assert (set a | 0 <= a < |q| :: q[a]) == (set a | 0 <= a < |p| :: p[a]) + {q[|q| - 1]};
    }
  }

  lemma SubsetSize(a: set<nat>, b: set<nat>)
    requires a <= b
    ensures |a| <= |b|
  {
    assert b == a + (b - a);
  }

  // The `default` branch that logs "death signal dropped" cannot be reached.
  lemma SignalFits(c: Config, s: State, i: nat)
    requires Accounted(c, s) && i < |s.ws| && s.ws[i].pc.Exiting?
    ensures |s.crew.died| < c.workers
  {
    Pigeonhole(s.crew.died, c.workers, i);
  }

  lemma DeathIsDie(c: Config, s: State, i: nat, act: Act)
    requires i < |s.ws| && ActEnabled(c, s, i, act)
    ensures Perform(c, s, i, act).die <==> act.Die?
    ensures Perform(c, s, i, act).w.pc.Dead? <==> act.Die?
    ensures !s.ws[i].pc.Dead?
  {
  }

  lemma WorkAccounted(c: Config, s: State, i: nat, e: Effect)
    requires Accounted(c, s) && i < |s.ws| && !s.ws[i].pc.Dead?
    requires (e.die <==> e.w.pc.Dead?) && (e.die ==> s.ws[i].pc.Exiting?)
    ensures Accounted(c, Apply(c, s, i, e))
  {
    if e.die {
      SignalFits(c, s, i);
      assert i in s.crew.died + [i];
    }
    var t := Apply(c, s, i, e);
    assert forall j :: 0 <= j < |s.ws| && s.ws[j].pc.Dead? ==> t.ws[j].pc.Dead?;
  }

  lemma StepAccounted(c: Config, s: State, ev: Event)
    requires Accounted(c, s) && Enabled(c, s, ev)
    ensures Accounted(c, Fire(c, s, ev))
  {
    match ev {
      case Work(i, act) =>
        DeathIsDie(c, s, i, act);
        WorkAccounted(c, s, i, Perform(c, s, i, act));
      case Notice => NoticeAccounted(c, s);
      case Restart => RestartAccounted(c, s);
      case _ => OtherAccounted(c, s, ev);
    }
  }

  lemma TailMembers(q: seq<nat>)
    requires q != [] && forall a, b :: 0 <= a < b < |q| ==> q[a] != q[b]
    ensures forall i :: i in q[1..] <==> i in q && i != q[0]
  {
    assert q == [q[0]] + q[1..];
  }

  lemma NoticeAccounted(c: Config, s: State)
    requires Accounted(c, s) && Enabled(c, s, Notice)
    ensures Accounted(c, FireEnv(c, s, Notice))
  {
    var t, first := FireEnv(c, s, Notice), s.crew.died[0];
    TailMembers(s.crew.died);
    assert t.ws == s.ws && t.crew == Crew(s.crew.died[1..], Holding(first), s.crew.stopped, s.crew.refilling);
    forall a | 0 <= a < |t.crew.died| ensures t.crew.died[a] == s.crew.died[a + 1] { }
  }

  lemma RestartAccounted(c: Config, s: State)
    requires Accounted(c, s) && Enabled(c, s, Restart)
    ensures s.ws[s.crew.sup.id].pc.Dead? && Accounted(c, FireEnv(c, s, Restart))
  {
    assert HeldBySupervisor(s.crew.sup, s.crew.sup.id);
  }

  lemma SamePcs(c: Config, s: State, t: State)
    requires Accounted(c, s) && |t.ws| == |s.ws| && forall i :: 0 <= i < |s.ws| ==> t.ws[i].pc == s.ws[i].pc
    requires t.crew.died == s.crew.died && forall i: nat :: HeldBySupervisor(t.crew.sup, i) == HeldBySupervisor(s.crew.sup, i)
    requires t.crew.sup.Quit? || t.crew.sup.QuitHolding? ==> t.crew.stopped
    ensures Accounted(c, t)
  {
  }

  lemma OtherAccounted(c: Config, s: State, ev: Event)
    requires Accounted(c, s) && Enabled(c, s, ev) && !ev.Work? && !ev.Notice? && !ev.Restart?
    ensures Accounted(c, Fire(c, s, ev))
  {
    if !ev.Crash? {
      SamePcs(c, s, Fire(c, s, ev));
    }
  }
}
