// Incrementally maintained tables of counters, and what it means for one to equal a recount.

module Tallies {
  // An array of counters; an absent cell reads 0.
  type Table<!K> = map<K, nat>

  function At<K>(t: Table<K>, k: K): nat {
    if k in t then t[k] else 0
  }

  function Add<K>(t: Table<K>, k: K, d: nat): Table<K> {
    t[k := At(t, k) + d]
  }

  // Saturating subtraction: an underflow leaves 0.
  function Sub<K>(t: Table<K>, k: K, d: nat): Table<K> {
    t[k := if At(t, k) >= d then At(t, k) - d else 0]
  }

  // Guarded subtraction: an underflow leaves the cell as it is.
  function SubGuarded<K>(t: Table<K>, k: K, d: nat): Table<K> {
    if At(t, k) >= d then t[k := At(t, k) - d] else t
  }

  ghost function Pick<V>(m: map<nat, V>): (i: nat)
    requires |m| > 0
    ensures i in m
  {
    assert m.Keys != {};
    var i :| i in m;
    i
  }

  // The recount: the sum of w(k, v) over the values v of m.
  ghost function Sum<K, V>(m: map<nat, V>, w: (K, V) -> nat, k: K): nat
    decreases |m|
  {
    if |m| == 0 then 0 else
      var i := Pick(m);
      assert m.Keys == (m - {i}).Keys + {i};
      w(k, m[i]) + Sum(m - {i}, w, k)
  }

  lemma {:induction false} SumRemove<K, V>(m: map<nat, V>, w: (K, V) -> nat, k: K, i: nat)
    requires i in m
    ensures Sum(m, w, k) == w(k, m[i]) + Sum(m - {i}, w, k)
    decreases |m|
  {
    assert |m| > 0 by { assert i in m.Keys; }
    var j := Pick(m);
    if i != j {
      Smaller(m, i);
      Smaller(m, j);
      SumRemove(m - {j}, w, k, i);
      SumRemove(m - {i}, w, k, j);
      assert m - {j} - {i} == m - {i} - {j};
    }
  }

  lemma Smaller<V>(m: map<nat, V>, i: nat)
    requires i in m
    ensures |m - {i}| < |m|
  {
    assert m.Keys == (m - {i}).Keys + {i};
  }

  lemma SumPut<K, V>(m: map<nat, V>, w: (K, V) -> nat, k: K, i: nat, v: V)
    ensures Sum(m[i := v], w, k) == Sum(m - {i}, w, k) + w(k, v)
  {
    SumRemove(m[i := v], w, k, i);
    assert m[i := v] - {i} == m - {i};
  }

  // Every cell of t is the recount over m.
  ghost predicate Tallied<K(!new), V>(t: Table<K>, m: map<nat, V>, w: (K, V) -> nat) {
    forall k: K :: At(t, k) == Sum(m, w, k)
  }

  // w charges v to the single cell c, with amount d (c is arbitrary when d is 0).
  ghost predicate Charges<K(!new), V>(w: (K, V) -> nat, v: V, c: K, d: nat) {
    forall k: K :: w(k, v) == if k == c then d else 0
  }

  lemma TallyAdd<K(!new), V>(t: Table<K>, m: map<nat, V>, w: (K, V) -> nat, i: nat, v: V, c: K, d: nat)
    requires Tallied(t, m, w) && i !in m && Charges(w, v, c, d)
    ensures Tallied(Add(t, c, d), m[i := v], w)
    ensures d == 0 ==> Tallied(t, m[i := v], w)
  {
    forall k: K ensures Sum(m[i := v], w, k) == Sum(m, w, k) + w(k, v) {
      SumPut(m, w, k, i, v);
      assert m - {i} == m;
    }
  }

  // Removing a value never takes the clamp branch of either subtraction.
  lemma TallySub<K(!new), V>(t: Table<K>, m: map<nat, V>, w: (K, V) -> nat, i: nat, c: K, d: nat)
    requires Tallied(t, m, w) && i in m && Charges(w, m[i], c, d)
    ensures At(t, c) >= d
    ensures Tallied(Sub(t, c, d), m - {i}, w) && Tallied(SubGuarded(t, c, d), m - {i}, w)
    ensures d == 0 ==> Tallied(t, m - {i}, w)
  {
    forall k: K ensures Sum(m, w, k) == w(k, m[i]) + Sum(m - {i}, w, k) {
      SumRemove(m, w, k, i);
    }
    assert At(t, c) == Sum(m, w, c) && w(c, m[i]) == d;
  }

  // Two maps whose values w cannot tell apart have the same sums.
  lemma {:induction false} SumSame<K, V>(m: map<nat, V>, n: map<nat, V>, w: (K, V) -> nat, k: K)
    requires m.Keys == n.Keys && forall i | i in m :: w(k, m[i]) == w(k, n[i])
    ensures Sum(m, w, k) == Sum(n, w, k)
    decreases |m|
  {
    if |m| > 0 {
      var i := Pick(m);
      assert m.Keys == (m - {i}).Keys + {i};
      SumRemove(n, w, k, i);
      SumSame(m - {i}, n - {i}, w, k);
    } else {
      assert m.Keys == {} && |n.Keys| == 0;
    }
  }

  lemma TallySame<K(!new), V>(t: Table<K>, m: map<nat, V>, n: map<nat, V>, w: (K, V) -> nat)
    requires Tallied(t, m, w) && m.Keys == n.Keys
    requires forall i, k: K | i in m :: w(k, m[i]) == w(k, n[i])
    ensures Tallied(t, n, w)
  {
    forall k: K ensures Sum(m, w, k) == Sum(n, w, k) { SumSame(m, n, w, k); }
  }
}
