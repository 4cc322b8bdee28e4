/** Sums over finite maps, whatever the order of iteration. */
module Sums {

  /** The total weight of the entries of a map. */
  ghost function Total<K(!new), V(!new)>(m: map<K, V>, w: (K, V) -> nat): nat
    decreases |m|
  {
    if m == map[] then 0
    else
      var k :| k in m;
      w(k, m[k]) + Total(m - {k}, w)
  }

  lemma {:induction false} Pick<K(!new), V(!new)>(m: map<K, V>, w: (K, V) -> nat, k: K)
    requires k in m
    ensures Total(m, w) == w(k, m[k]) + Total(m - {k}, w)
    decreases |m|
  {
    var j :| j in m && Total(m, w) == w(j, m[j]) + Total(m - {j}, w);
    if j != k {
      Pick(m - {j}, w, k);
      Pick(m - {k}, w, j);
      assert (m - {j}) - {k} == (m - {k}) - {j};
    }
  }

  lemma Added<K(!new), V(!new)>(m: map<K, V>, w: (K, V) -> nat, k: K, v: V)
    requires k !in m
    ensures Total(m[k := v], w) == Total(m, w) + w(k, v)
  {
    Pick(m[k := v], w, k);
    assert m[k := v] - {k} == m;
  }

  lemma Replaced<K(!new), V(!new)>(m: map<K, V>, w: (K, V) -> nat, k: K, v: V)
    requires k in m
    ensures Total(m[k := v], w) + w(k, m[k]) == Total(m, w) + w(k, v)
  {
    Pick(m, w, k);
    Pick(m[k := v], w, k);
    assert m[k := v] - {k} == m - {k};
  }

  /** Maps with the same keys and the same weights have the same total. */
  lemma {:induction false} Same<K(!new), V(!new), U(!new)>(m: map<K, V>, w: (K, V) -> nat, n: map<K, U>, x: (K, U) -> nat)
    requires m.Keys == n.Keys && forall k :: k in m ==> w(k, m[k]) == x(k, n[k])
    ensures Total(m, w) == Total(n, x)
    decreases |m|
  {
    if m != map[] {
      var k :| k in m;
      Pick(m, w, k);
      assert k in n;
      Pick(n, x, k);
      Same(m - {k}, w, n - {k}, x);
    } else {
      assert n == map[];
    }
  }

  lemma {:induction false} Split<K(!new), V(!new)>(m: map<K, V>, w: (K, V) -> nat, a: set<K>)
    ensures Total(m, w) == Total(m - a, w) + Total(map k | k in m && k in a :: m[k], w)
    decreases |m|
  {
    var left, right := m - a, map k | k in m && k in a :: m[k];
    if m == map[] {
      assert left == map[] && right == map[];
    } else {
      var k :| k in m;
      Pick(m, w, k);
      Split(m - {k}, w, a);
      var right' := map j | j in m - {k} && j in a :: (m - {k})[j];
      if k in a {
        Pick(right, w, k);
        assert right - {k} == right' && (m - {k}) - a == left;
      } else {
        Pick(left, w, k);
        assert left - {k} == (m - {k}) - a && right == right';
      }
    }
  }

  lemma ValuesWithout<K(!new), L(!new)>(to: map<K, L>, k: K)
    requires k in to && forall j :: j in to && to[j] == to[k] ==> j == k
    ensures (to - {k}).Values == to.Values - {to[k]} && to[k] in to.Values
  {
    forall v | v in to.Values - {to[k]} ensures v in (to - {k}).Values {
      var j :| j in to && to[j] == v;
      assert j in to - {k};
    }
  }

  /** Renaming the keys one to one does not change the total. */
  lemma {:induction false} Relabelled<K(!new), V(!new), L(!new), U(!new)>(
      m: map<K, V>, w: (K, V) -> nat, n: map<L, U>, x: (L, U) -> nat, to: map<K, L>)
    requires to.Keys == m.Keys && to.Values == n.Keys
    requires forall j, k :: j in to && k in to && to[j] == to[k] ==> j == k
    requires forall k :: k in m ==> to[k] in n && w(k, m[k]) == x(to[k], n[to[k]])
    ensures Total(m, w) == Total(n, x)
    decreases |m|
  {
    hide Total;
    if m == map[] {
      assert forall l :: l in n ==> l in to.Values;
      assert n == map[];
      Zero(m, w);
      Zero(n, x);
    } else {
      var k :| k in m;
      Pick(m, w, k);
      Pick(n, x, to[k]);
      ValuesWithout(to, k);
      Relabelled(m - {k}, w, n - {to[k]}, x, to - {k});
    }
  }

  lemma AtMost<K(!new), V(!new)>(m: map<K, V>, w: (K, V) -> nat, k: K)
    requires k in m
    ensures w(k, m[k]) <= Total(m, w)
  {
    Pick(m, w, k);
  }

  lemma {:induction false} Zero<K(!new), V(!new)>(m: map<K, V>, w: (K, V) -> nat)
    requires forall k :: k in m ==> w(k, m[k]) == 0
    ensures Total(m, w) == 0
    decreases |m|
  {
    if m != map[] {
      var k :| k in m;
      Pick(m, w, k);
      Zero(m - {k}, w);
    }
  }

  // ---------------------------------------------------------------- sums by group

  /** The weight of an entry if it belongs to the group `h`. */
  function InGroup<K(!new), V(!new), H(==)>(w: (K, V) -> nat, of: (K, V) -> H, h: H): (K, V) -> nat {
    (k, v) => if of(k, v) == h then w(k, v) else 0
  }

  ghost function Share<K(!new), V(!new), H(!new)>(m: map<K, V>, w: (K, V) -> nat, of: (K, V) -> H, h: H): nat {
    Total(m, InGroup(w, of, h))
  }

  function Itself<H(!new)>(): (H, nat) -> nat {
    (h, n) => n
  }

  ghost function Shares<K(!new), V(!new), H(!new)>(m: map<K, V>, w: (K, V) -> nat, of: (K, V) -> H, hs: set<H>): map<H, nat> {
    map h | h in hs :: Share(m, w, of, h)
  }

  /** The shares of all groups add up to the whole. */
  lemma {:induction false} SharesAddUp<K(!new), V(!new), H(!new)>(m: map<K, V>, w: (K, V) -> nat, of: (K, V) -> H, hs: set<H>)
    requires forall k :: k in m ==> of(k, m[k]) in hs
    ensures Total(Shares(m, w, of, hs), Itself()) == Total(m, w)
    decreases |m|
  {
    hide Total;
    if m == map[] {
      NoShares(w, of, hs);
    } else {
      var k :| k in m;
      var h, n, rest := of(k, m[k]), w(k, m[k]), m - {k};
      Pick(m, w, k);
      SharesAddUp(rest, w, of, hs);
      var before := Shares(rest, w, of, hs);
      OneShare(m, w, of, hs, k);
      Replaced(before, Itself(), h, before[h] + n);
    }
  }

  lemma NoShares<K(!new), V(!new), H(!new)>(w: (K, V) -> nat, of: (K, V) -> H, hs: set<H>)
    ensures Total(Shares(map[], w, of, hs), Itself()) == 0 && Total(map[], w) == 0
  {
    var shares := Shares(map[], w, of, hs);
    forall h | h in shares ensures Itself()(h, shares[h]) == 0 {
      assert shares[h] == Share(map[], w, of, h);
    }
    Zero(shares, Itself());
  }

  lemma OneShare<K(!new), V(!new), H(!new)>(m: map<K, V>, w: (K, V) -> nat, of: (K, V) -> H, hs: set<H>, k: K)
    requires k in m && of(k, m[k]) in hs
    ensures var h, before := of(k, m[k]), Shares(m - {k}, w, of, hs);
            Shares(m, w, of, hs) == before[h := before[h] + w(k, m[k])]
  {
    hide Total;
    var h, shares, before := of(k, m[k]), Shares(m, w, of, hs), Shares(m - {k}, w, of, hs);
    forall g | g in hs ensures shares[g] == before[g] + if g == h then w(k, m[k]) else 0 {
      Pick(m, InGroup(w, of, g), k);
    }
  }
}
