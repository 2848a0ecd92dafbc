// Counting over sequences and summing over maps, with the laws the ledgers need.
module Counting {

  function Bit(b: bool): nat { if b then 1 else 0 }

  function Count<T>(xs: seq<T>, p: T -> bool): nat {
    if xs == [] then 0 else Bit(p(xs[0])) + Count(xs[1..], p)
  }

  lemma {:induction false} CountConcat<T>(xs: seq<T>, ys: seq<T>, p: T -> bool)
    ensures Count(xs + ys, p) == Count(xs, p) + Count(ys, p)
  {
    if xs == [] {
      assert xs + ys == ys;
    } else {
      assert (xs + ys)[1..] == xs[1..] + ys;
      CountConcat(xs[1..], ys, p);
    }
  }

  lemma CountSnoc<T>(xs: seq<T>, x: T, p: T -> bool)
    ensures Count(xs + [x], p) == Count(xs, p) + Bit(p(x))
  {
    CountConcat(xs, [x], p);
    assert [x][1..] == [];
  }

  lemma CountBetween<T>(a: seq<T>, x: T, b: seq<T>, p: T -> bool)
    ensures Count(a + [x] + b, p) == Count(a + b, p) + Bit(p(x))
  {
    CountConcat(a, b, p);
    CountSnoc(a, x, p);
    CountConcat(a + [x], b, p);
  }

  lemma CountInsert<T>(xs: seq<T>, k: nat, x: T, p: T -> bool)
    requires k <= |xs|
    ensures Count(xs[..k] + [x] + xs[k..], p) == Count(xs, p) + Bit(p(x))
  {
    var a, b := xs[..k], xs[k..];
    assert a + b == xs;
    CountBetween(a, x, b, p);
  }

  lemma CountUpdate<T>(xs: seq<T>, i: nat, x: T, p: T -> bool)
    requires i < |xs|
    ensures Count(xs[i := x], p) + Bit(p(xs[i])) == Count(xs, p) + Bit(p(x))
  {
    assert xs[i := x] == xs[..i] + [x] + xs[i + 1..];
    assert xs == xs[..i] + [xs[i]] + xs[i + 1..];
    CountSnoc(xs[..i], x, p);
    CountSnoc(xs[..i], xs[i], p);
    CountConcat(xs[..i] + [x], xs[i + 1..], p);
    CountConcat(xs[..i] + [xs[i]], xs[i + 1..], p);
  }

  lemma CountPositive<T>(xs: seq<T>, i: nat, p: T -> bool)
    requires i < |xs| && p(xs[i])
    ensures Count(xs, p) >= 1
  {
    CountConcat(xs[..i], xs[i..], p);
    assert xs[..i] + xs[i..] == xs;
  }

  lemma CountTwo<T>(xs: seq<T>, i: nat, j: nat, p: T -> bool)
    requires i < j < |xs| && p(xs[i]) && p(xs[j])
    ensures Count(xs, p) >= 2
  {
    CountConcat(xs[..j], xs[j..], p);
    assert xs[..j] + xs[j..] == xs;
    CountPositive(xs[..j], i, p);
    CountPositive(xs[j..], 0, p);
  }

  lemma {:induction false} CountNone<T>(xs: seq<T>, p: T -> bool)
    requires forall i :: 0 <= i < |xs| ==> !p(xs[i])
    ensures Count(xs, p) == 0
  {
    if xs != [] {
      CountNone(xs[1..], p);
    }
  }

  // The sum of f over the values stored under the keys of ks.
  ghost function SumKeys<K, V>(m: map<K, V>, ks: set<K>, f: V -> int): int
    requires ks <= m.Keys
    decreases |ks|
  {
    if ks == {} then 0
    else
      var k :| k in ks;
      f(m[k]) + SumKeys(m, ks - {k}, f)
  }

  ghost function Sum<K, V>(m: map<K, V>, f: V -> int): int {
    SumKeys(m, m.Keys, f)
  }

  lemma {:induction false} SumKeysRemove<K, V>(m: map<K, V>, ks: set<K>, x: K, f: V -> int)
    requires ks <= m.Keys && x in ks
    ensures SumKeys(m, ks, f) == f(m[x]) + SumKeys(m, ks - {x}, f)
    decreases |ks|
  {
    var k :| k in ks && SumKeys(m, ks, f) == f(m[k]) + SumKeys(m, ks - {k}, f);
    if k != x {
      SumKeysRemove(m, ks - {k}, x, f);
      SumKeysRemove(m, ks - {x}, k, f);
      assert ks - {k} - {x} == ks - {x} - {k};
    }
  }

  lemma {:induction false} SumKeysAgree<K, V>(m: map<K, V>, n: map<K, V>, ks: set<K>, f: V -> int)
    requires ks <= m.Keys && ks <= n.Keys
    requires forall k :: k in ks ==> f(m[k]) == f(n[k])
    ensures SumKeys(m, ks, f) == SumKeys(n, ks, f)
    decreases |ks|
  {
    if ks != {} {
      var k :| k in ks;
      SumKeysRemove(m, ks, k, f);
      SumKeysRemove(n, ks, k, f);
      SumKeysAgree(m, n, ks - {k}, f);
    }
  }

  lemma SumUpdate<K, V>(m: map<K, V>, k: K, v: V, f: V -> int)
    ensures Sum(m[k := v], f) == Sum(m, f) + f(v) - (if k in m then f(m[k]) else 0)
  {
    var n := m[k := v];
    SumKeysRemove(n, n.Keys, k, f);
    var rest := n.Keys - {k};
    SumKeysAgree(m, n, rest, f);
    if k in m {
      SumKeysRemove(m, m.Keys, k, f);
      assert m.Keys - {k} == rest;
    } else {
      assert m.Keys == rest;
    }
  }

  lemma {:induction false} SumKeysAdd<K, V>(m: map<K, V>, ks: set<K>, f: V -> int, g: V -> int, h: V -> int)
    requires ks <= m.Keys
    requires forall k :: k in ks ==> h(m[k]) == f(m[k]) + g(m[k])
    ensures SumKeys(m, ks, h) == SumKeys(m, ks, f) + SumKeys(m, ks, g)
    decreases |ks|
  {
    if ks != {} {
      var k :| k in ks;
      SumKeysRemove(m, ks, k, f);
      SumKeysRemove(m, ks, k, g);
      SumKeysRemove(m, ks, k, h);
      SumKeysAdd(m, ks - {k}, f, g, h);
    }
  }

  // A family of counters indexed by label; an absent label reads zero.
  function Read<K>(m: map<K, nat>, k: K): nat { if k in m then m[k] else 0 }

  function Add<K(!new)>(m: map<K, nat>, k: K, n: nat): (r: map<K, nat>)
    ensures forall j :: Read(r, j) == Read(m, j) + (if j == k then n else 0)
  {
    m[k := Read(m, k) + n]
  }
}
