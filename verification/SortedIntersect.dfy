/** Intersection of sorted iterators by repeatedly advancing the one that lags
    behind. */
module SortedIntersection {

  /** `a` comes before `b` in the direction of iteration. */
  predicate Before(forward: bool, a: nat, b: nat) {
    if forward then a < b else a > b
  }

  predicate Mono(forward: bool, s: seq<nat>) {
    forall i, j :: 0 <= i < j < |s| ==> Before(forward, s[i], s[j])
  }

  predicate AllMono(forward: bool, its: seq<seq<nat>>) {
    forall k :: 0 <= k < |its| ==> Mono(forward, its[k])
  }

  /** What the intersection is: the elements of the first list that are in all
      lists, in their order. */
  function Shared(its: seq<seq<nat>>): seq<nat> {
    if its == [] then [] else Kept(its[0], its)
  }

  predicate InAll(x: nat, its: seq<seq<nat>>) {
    forall k :: 0 <= k < |its| ==> x in its[k]
  }

  function Kept(s: seq<nat>, its: seq<seq<nat>>): seq<nat> {
    if s == [] then []
    else Kept(s[..|s| - 1], its) + (if InAll(s[|s| - 1], its) then [s[|s| - 1]] else [])
  }

  lemma MonoAdd(forward: bool, s: seq<nat>, x: nat)
    requires Mono(forward, s) && forall y :: y in s ==> Before(forward, y, x)
    ensures Mono(forward, s + [x])
  {
  }

  lemma {:induction false} KeptIs(s: seq<nat>, its: seq<seq<nat>>, forward: bool)
    requires Mono(forward, s)
    ensures Mono(forward, Kept(s, its))
    ensures forall x :: x in Kept(s, its) <==> x in s && InAll(x, its)
    decreases |s|
  {
    if s != [] {
      var n := |s| - 1;
      var kept := Kept(s[..n], its);
      KeptIs(s[..n], its, forward);
      assert forall x :: x in s <==> x in s[..n] || x == s[n];
      forall x | x in kept ensures Before(forward, x, s[n]) {
        assert x in s[..n];
      }
      MonoAdd(forward, kept, s[n]);
    }
  }

  lemma SharedIs(its: seq<seq<nat>>, forward: bool)
    requires AllMono(forward, its) && its != []
    ensures Mono(forward, Shared(its))
    ensures forall x :: x in Shared(its) <==> InAll(x, its)
  {
    KeptIs(its[0], its, forward);
  }

  // ---------------------------------------------------------------- the heap

  type Entry = (nat, nat)

  /** Sorted so that the entry to be popped, the last one, comes first in the
      direction of iteration. */
  predicate InOrder(forward: bool, heap: seq<Entry>) {
    forall i, j :: 0 <= i < j < |heap| ==> !Before(forward, heap[i].0, heap[j].0)
  }

  function Insert(forward: bool, heap: seq<Entry>, e: Entry): seq<Entry> {
    if heap == [] then [e]
    else
      var n := |heap| - 1;
      if Before(forward, heap[n].0, e.0) then Insert(forward, heap[..n], e) + [heap[n]] else heap + [e]
  }

  lemma {:induction false} InsertKeeps(forward: bool, heap: seq<Entry>, e: Entry)
    ensures multiset(Insert(forward, heap, e)) == multiset(heap) + multiset{e}
    decreases |heap|
  {
    hide Before;
    if heap != [] {
      var n := |heap| - 1;
      assert heap == heap[..n] + [heap[n]];
      InsertKeeps(forward, heap[..n], e);
    }
  }

  lemma {:induction false} InsertOrders(forward: bool, heap: seq<Entry>, e: Entry)
    requires InOrder(forward, heap)
    ensures InOrder(forward, Insert(forward, heap, e))
    decreases |heap|
  {
    if heap != [] {
      var n := |heap| - 1;
      var front := heap[..n];
      InsertOrders(forward, front, e);
      if Before(forward, heap[n].0, e.0) {
        var r := Insert(forward, front, e);
        InsertKeeps(forward, front, e);
        forall i | 0 <= i < |r| ensures !Before(forward, r[i].0, heap[n].0) {
          assert r[i] in multiset(r);
          assert r[i] == e || r[i] in front;
        }
        Appended(forward, r, heap[n]);
      } else {
        Appended(forward, heap, e);
      }
    }
  }

  lemma Appended(forward: bool, heap: seq<Entry>, e: Entry)
    requires InOrder(forward, heap)
    requires heap != [] ==> forall i :: 0 <= i < |heap| ==> !Before(forward, heap[i].0, e.0)
    ensures InOrder(forward, heap + [e])
  {
  }

  /** `heapify`: sort the whole vector. */
  function Heapify(forward: bool, heap: seq<Entry>): seq<Entry> {
    if heap == [] then []
    else Insert(forward, Heapify(forward, heap[..|heap| - 1]), heap[|heap| - 1])
  }

  /** Sorting keeps the entries and orders them. */
  lemma {:induction false} HeapifyIs(forward: bool, heap: seq<Entry>)
    ensures InOrder(forward, Heapify(forward, heap)) && multiset(Heapify(forward, heap)) == multiset(heap)
    decreases |heap|
  {
    if heap != [] {
      var n := |heap| - 1;
      assert heap == heap[..n] + [heap[n]];
      HeapifyIs(forward, heap[..n]);
      InsertKeeps(forward, Heapify(forward, heap[..n]), heap[n]);
      InsertOrders(forward, Heapify(forward, heap[..n]), heap[n]);
    }
  }

  /** `is_hit`: all values are the same. */
  method IsHit(heap: seq<Entry>) returns (hit: bool)
    ensures hit <==> heap != [] && forall i :: 0 <= i < |heap| ==> heap[i].0 == heap[0].0
  {
    if heap == [] {
      return false;
    }
    var value := heap[0].0;
    hit := true;
    for i := 0 to |heap|
      invariant i > 0 ==> value == heap[i - 1].0
      invariant i == 0 ==> value == heap[0].0
      invariant hit <==> forall j :: 0 <= j < i ==> heap[j].0 == heap[0].0
    {
      hit := hit && value == heap[i].0;
      value := heap[i].0;
    }
  }

  /** The heap holds exactly one entry per iterator: its current element. */
  ghost predicate Holds(heap: seq<Entry>, heads: seq<nat>) {
    && |heap| == |heads|
    && (forall e :: e in heap ==> e.1 < |heads| && e.0 == heads[e.1])
    && (forall k :: 0 <= k < |heads| ==> multiset(heap)[(heads[k], k)] == 1)
  }

  lemma HoldsPermuted(a: seq<Entry>, b: seq<Entry>, heads: seq<nat>)
    requires Holds(a, heads) && multiset(a) == multiset(b)
    ensures Holds(b, heads)
  {
    assert |multiset(a)| == |a| && |multiset(b)| == |b|;
    forall e | e in b ensures e in a {
      assert e in multiset(b);
    }
  }

  lemma {:induction false} DistinctOnce(s: seq<Entry>, k: nat)
    requires k < |s| && forall i, j :: 0 <= i < j < |s| ==> s[i] != s[j]
    ensures multiset(s)[s[k]] == 1
    decreases |s|
  {
    var n := |s| - 1;
    assert s == s[..n] + [s[n]];
    if k < n {
      DistinctOnce(s[..n], k);
    } else {
      assert s[n] !in s[..n];
      assert s[n] !in multiset(s[..n]);
    }
  }

  /** Replacing the popped entry by the next element of its iterator. */
  lemma HoldsReplaced(heap: seq<Entry>, heads: seq<nat>, x: nat)
    requires Holds(heap, heads) && heap != []
    ensures var e := heap[|heap| - 1];
            e.1 < |heads| && Holds(heap[..|heap| - 1] + [(x, e.1)], heads[e.1 := x])
  {
    var n := |heap| - 1;
    var e, front := heap[n], heap[..n];
    assert heap == front + [e] && e in heap;
    var heap', heads' := front + [(x, e.1)], heads[e.1 := x];
    assert multiset(heap') == multiset(front) + multiset{(x, e.1)};
    FrontApart(front, e, heads);
    forall k | 0 <= k < |heads'| ensures multiset(heap')[(heads'[k], k)] == 1 {
      if k == e.1 {
        assert (x, e.1) !in front;
        assert (x, e.1) !in multiset(front);
      } else {
        assert multiset(heap)[(heads[k], k)] == 1;
      }
    }
  }

  /** No other entry belongs to the iterator of the last one. */
  lemma FrontApart(front: seq<Entry>, e: Entry, heads: seq<nat>)
    requires Holds(front + [e], heads)
    ensures forall y :: y in front ==> y.1 < |heads| && y.1 != e.1 && y.0 == heads[y.1]
  {
    var heap := front + [e];
    assert multiset(heap) == multiset(front) + multiset{e};
    assert heap[|front|] == e && e in heap;
    assert multiset(heap)[e] == 1;
    forall y | y in front ensures y in heap && y.1 != e.1 {
      var i :| 0 <= i < |front| && front[i] == y;
      assert heap[i] == y;
      assert y in multiset(front);
    }
  }

  // ---------------------------------------------------------------- progress

  /** Every iterator has delivered `pos[k]` elements, at least one. */
  ghost predicate Delivered(its: seq<seq<nat>>, pos: seq<nat>) {
    |pos| == |its| && forall k :: 0 <= k < |its| ==> 1 <= pos[k] <= |its[k]|
  }

  ghost function Heads(its: seq<seq<nat>>, pos: seq<nat>): (h: seq<nat>)
    requires Delivered(its, pos)
    ensures |h| == |its|
  {
    seq(|its|, k requires 0 <= k < |its| => its[k][pos[k] - 1])
  }

  /** `ret` is the part of the intersection that lies before all current
      elements; the rest of it lies at or behind every one of them. */
  ghost predicate Progress(its: seq<seq<nat>>, forward: bool, heads: seq<nat>, ret: seq<nat>) {
    && ret <= Shared(its)
    && (forall x, k :: x in ret && 0 <= k < |heads| ==> Before(forward, x, heads[k]))
    && (forall i, k :: |ret| <= i < |Shared(its)| && 0 <= k < |heads| ==> !Before(forward, Shared(its)[i], heads[k]))
  }

  /** What an iterator still holds behind its current element. */
  lemma Behind(its: seq<seq<nat>>, forward: bool, pos: seq<nat>, k: nat, x: nat)
    requires AllMono(forward, its) && Delivered(its, pos) && k < |its| && x in its[k]
    requires Before(forward, Heads(its, pos)[k], x)
    ensures pos[k] < |its[k]| && !Before(forward, x, its[k][pos[k]])
  {
    var i :| 0 <= i < |its[k]| && its[k][i] == x;
    assert Mono(forward, its[k]);
  }

  /** All current elements are equal: this is the next common element. */
  lemma Hit(its: seq<seq<nat>>, forward: bool, pos: seq<nat>, ret: seq<nat>)
    requires its != [] && AllMono(forward, its) && Delivered(its, pos)
    requires Progress(its, forward, Heads(its, pos), ret)
    requires forall k :: 0 <= k < |its| ==> Heads(its, pos)[k] == Heads(its, pos)[0]
    ensures |ret| < |Shared(its)| && Shared(its)[|ret|] == Heads(its, pos)[0]
  {
    var heads, c := Heads(its, pos), Shared(its);
    var v := heads[0];
    SharedIs(its, forward);
    forall k | 0 <= k < |its| ensures v in its[k] {
      assert heads[k] == its[k][pos[k] - 1];
    }
    assert v in c;
    var i :| 0 <= i < |c| && c[i] == v;
    assert v !in ret;
    assert forall m :: 0 <= m < |ret| ==> c[m] == ret[m] && ret[m] in ret;
    assert !Before(forward, c[|ret|], v);
  }

  lemma CommonInAll(its: seq<seq<nat>>, forward: bool)
    requires its != [] && AllMono(forward, its)
    ensures forall x, k :: x in Shared(its) && 0 <= k < |its| ==> x in its[k]
  {
    SharedIs(its, forward);
    hide Shared;
  }

  /** After a hit all iterators move on. */
  lemma AfterHit(its: seq<seq<nat>>, forward: bool, pos: seq<nat>, ret: seq<nat>, pos': seq<nat>)
    requires its != [] && AllMono(forward, its) && Delivered(its, pos) && Delivered(its, pos')
    requires Progress(its, forward, Heads(its, pos), ret)
    requires forall k :: 0 <= k < |its| ==> Heads(its, pos)[k] == Heads(its, pos)[0] && pos'[k] == pos[k] + 1
    ensures Progress(its, forward, Heads(its, pos'), ret + [Heads(its, pos)[0]])
  {
    hide Shared, InAll;
    var heads, heads', c := Heads(its, pos), Heads(its, pos'), Shared(its);
    var v := heads[0];
    Hit(its, forward, pos, ret);
    SharedIs(its, forward);
    CommonInAll(its, forward);
    assert ret + [v] == c[..|ret| + 1];
    forall k | 0 <= k < |its| ensures Before(forward, v, heads'[k]) {
      assert heads[k] == its[k][pos[k] - 1] && heads'[k] == its[k][pos[k]];
      assert Mono(forward, its[k]);
    }
    forall i, k | |ret| + 1 <= i < |c| && 0 <= k < |its| ensures !Before(forward, c[i], heads'[k]) {
      assert Before(forward, v, c[i]) && c[i] in c;
      Behind(its, forward, pos, k, c[i]);
    }
  }

  /** One iterator ran out on a hit: there is nothing more in common. */
  lemma HitExhausted(its: seq<seq<nat>>, forward: bool, pos: seq<nat>, ret: seq<nat>, k: nat)
    requires its != [] && AllMono(forward, its) && Delivered(its, pos)
    requires Progress(its, forward, Heads(its, pos), ret)
    requires forall k :: 0 <= k < |its| ==> Heads(its, pos)[k] == Heads(its, pos)[0]
    requires k < |its| && pos[k] == |its[k]|
    ensures ret + [Heads(its, pos)[0]] == Shared(its)
  {
    var c := Shared(its);
    Hit(its, forward, pos, ret);
    SharedIs(its, forward);
    var n := |ret| + 1;
    if n < |c| {
      assert c[n] in c && Before(forward, c[|ret|], c[n]);
      Behind(its, forward, pos, k, c[n]);
    }
    assert c == c[..|ret|] + [c[|ret|]];
  }

  /** The element that lags behind some other one is not common. */
  lemma Lagging(its: seq<seq<nat>>, forward: bool, pos: seq<nat>, ret: seq<nat>, k: nat, j: nat, i: nat)
    requires its != [] && AllMono(forward, its) && Delivered(its, pos)
    requires Progress(its, forward, Heads(its, pos), ret)
    requires k < |its| && j < |its| && Before(forward, Heads(its, pos)[k], Heads(its, pos)[j])
    requires |ret| <= i < |Shared(its)|
    ensures Shared(its)[i] in its[k] && Before(forward, Heads(its, pos)[k], Shared(its)[i])
  {
    SharedIs(its, forward);
    assert Shared(its)[i] in Shared(its);
    assert !Before(forward, Shared(its)[i], Heads(its, pos)[j]);
  }

  lemma AfterMiss(its: seq<seq<nat>>, forward: bool, pos: seq<nat>, ret: seq<nat>, k: nat, j: nat)
    requires its != [] && AllMono(forward, its) && Delivered(its, pos)
    requires Progress(its, forward, Heads(its, pos), ret)
    requires k < |its| && j < |its| && Before(forward, Heads(its, pos)[k], Heads(its, pos)[j])
    requires pos[k] < |its[k]|
    ensures var pos' := pos[k := pos[k] + 1];
            Delivered(its, pos') && Progress(its, forward, Heads(its, pos'), ret)
  {
    var pos' := pos[k := pos[k] + 1];
    var heads, c := Heads(its, pos), Shared(its);
    var heads' := Heads(its, pos');
    var x := its[k][pos[k]];
    assert heads' == heads[k := x];
    assert heads[k] == its[k][pos[k] - 1];
    assert Mono(forward, its[k]);
    forall i | |ret| <= i < |c| ensures !Before(forward, c[i], x) {
      Lagging(its, forward, pos, ret, k, j, i);
      Behind(its, forward, pos, k, c[i]);
    }
  }

  lemma HeadMoves(its: seq<seq<nat>>, pos: seq<nat>, k: nat)
    requires Delivered(its, pos) && k < |its| && pos[k] < |its[k]|
    ensures var pos' := pos[k := pos[k] + 1];
            Delivered(its, pos') && Heads(its, pos') == Heads(its, pos)[k := its[k][pos[k]]]
  {
  }

  lemma MissExhausted(its: seq<seq<nat>>, forward: bool, pos: seq<nat>, ret: seq<nat>, k: nat, j: nat)
    requires its != [] && AllMono(forward, its) && Delivered(its, pos)
    requires Progress(its, forward, Heads(its, pos), ret)
    requires k < |its| && j < |its| && Before(forward, Heads(its, pos)[k], Heads(its, pos)[j])
    requires pos[k] == |its[k]|
    ensures ret == Shared(its)
  {
    if |ret| < |Shared(its)| {
      Lagging(its, forward, pos, ret, k, j, |ret|);
      Behind(its, forward, pos, k, Shared(its)[|ret|]);
    }
  }

  /** At the start nothing is behind. */
  lemma AtStart(its: seq<seq<nat>>, forward: bool, pos: seq<nat>)
    requires its != [] && AllMono(forward, its) && Delivered(its, pos) && forall k :: 0 <= k < |its| ==> pos[k] == 1
    ensures Progress(its, forward, Heads(its, pos), [])
  {
    SharedIs(its, forward);
    forall i, k | 0 <= i < |Shared(its)| && 0 <= k < |its|
      ensures !Before(forward, Shared(its)[i], Heads(its, pos)[k])
    {
      var x := Shared(its)[i];
      assert x in Shared(its) && x in its[k];
      var n :| 0 <= n < |its[k]| && its[k][n] == x;
      assert Mono(forward, its[k]);
    }
  }

  lemma NothingInCommon(its: seq<seq<nat>>, forward: bool, k: nat)
    requires AllMono(forward, its) && k < |its| && its[k] == []
    ensures Shared(its) == []
  {
    SharedIs(its, forward);
    var c := Shared(its);
    assert forall i :: 0 <= i < |c| ==> c[i] in c;
  }

  // ---------------------------------------------------------------- the algorithm

  /** `fill_heap`: take the next element of every iterator. */
  method FillHeap(iters: seq<seq<nat>>, forward: bool)
    returns (ok: bool, iters': seq<seq<nat>>, heap: seq<Entry>)
    ensures ok <==> forall k :: 0 <= k < |iters| ==> iters[k] != []
    ensures ok ==>
              && |iters'| == |iters| && (forall k :: 0 <= k < |iters| ==> iters'[k] == iters[k][1..])
              && InOrder(forward, heap)
              && Holds(heap, seq(|iters|, k requires 0 <= k < |iters| => iters[k][0]))
  {
    iters', heap := iters, [];
    for i := 0 to |iters|
      invariant |iters'| == |iters| && |heap| == i
      invariant forall k :: 0 <= k < i ==> iters[k] != [] && iters'[k] == iters[k][1..] && heap[k] == (iters[k][0], k)
      invariant forall k :: i <= k < |iters| ==> iters'[k] == iters[k]
    {
      if iters[i] == [] {
        return false, iters', heap;
      }
      heap := heap + [(iters[i][0], i)];
      iters' := iters'[i := iters[i][1..]];
    }
    ghost var heads := seq(|iters|, k requires 0 <= k < |iters| => iters[k][0]);
    forall k | 0 <= k < |heads| ensures multiset(heap)[(heads[k], k)] == 1 {
      DistinctOnce(heap, k);
    }
    HeapifyIs(forward, heap);
    HoldsPermuted(heap, Heapify(forward, heap), heads);
    heap := Heapify(forward, heap);
    ok := true;
  }

  ghost predicate Remaining(its: seq<seq<nat>>, pos: seq<nat>, iters: seq<seq<nat>>)
    requires Delivered(its, pos)
  {
    |iters| == |its| && forall k :: 0 <= k < |its| ==> iters[k] == its[k][pos[k]..]
  }

  ghost function Left(iters: seq<seq<nat>>): nat {
    if iters == [] then 0 else |iters[0]| + Left(iters[1..])
  }

  lemma {:induction false} LeftLess(a: seq<seq<nat>>, b: seq<seq<nat>>, k: nat)
    requires |a| == |b| && k < |a| && |b[k]| < |a[k]| && forall i :: 0 <= i < |a| ==> |b[i]| <= |a[i]|
    ensures Left(b) < Left(a)
  {
    if k == 0 {
      LeftLeq(a[1..], b[1..]);
    } else {
      LeftLess(a[1..], b[1..], k - 1);
    }
  }

  lemma {:induction false} LeftLeq(a: seq<seq<nat>>, b: seq<seq<nat>>)
    requires |a| == |b| && forall i :: 0 <= i < |a| ==> |b[i]| <= |a[i]|
    ensures Left(b) <= Left(a)
  {
    if a != [] {
      LeftLeq(a[1..], b[1..]);
    }
  }

  /** The popped entry lags behind another one, unless all are equal. */
  lemma PopLags(heap: seq<Entry>, heads: seq<nat>, forward: bool) returns (j: nat)
    requires Holds(heap, heads) && InOrder(forward, heap) && heap != []
    requires exists i :: 0 <= i < |heap| && heap[i].0 != heap[0].0
    ensures j < |heads| && Before(forward, heap[|heap| - 1].0, heads[j])
  {
    var n := |heap| - 1;
    var i :| 0 <= i < |heap| && heap[i].0 != heap[0].0;
    assert heap[0] in heap && heap[i] in heap;
    j := if heap[0].0 != heap[n].0 then heap[0].1 else heap[i].1;
  }

  /** After a hit: the values are the heads. */
  lemma HitHeads(heap: seq<Entry>, heads: seq<nat>)
    requires Holds(heap, heads) && heap != [] && forall i :: 0 <= i < |heap| ==> heap[i].0 == heap[0].0
    ensures forall k :: 0 <= k < |heads| ==> heads[k] == heads[0] == heap[|heap| - 1].0
  {
    forall k | 0 <= k < |heads| ensures heads[k] == heap[0].0 {
      assert (heads[k], k) in multiset(heap);
      assert (heads[k], k) in heap;
    }
  }

  function Take(s: seq<nat>, limit: nat): seq<nat> {
    if limit < |s| then s[..limit] else s
  }

  /** `sorted_intersect`: over strictly sorted iterators, the first `limit`
      elements of the intersection. */
  method SortedIntersect(its: seq<seq<nat>>, limit: nat, forward: bool) returns (ret: seq<nat>)
    ensures AllMono(forward, its) ==> ret == Take(Shared(its), limit)
    ensures |its| == 1 ==> ret == Take(its[0], limit)
  {
    ret := [];
    if its == [] {
      return;
    }
    if |its| == 1 {
      OneIterator(its, forward);
      ret := Take(its[0], limit);
      return;
    }
    ret := IntersectMany(its, limit, forward);
  }

  lemma OneIterator(its: seq<seq<nat>>, forward: bool)
    requires |its| == 1
    ensures Shared(its) == its[0]
  {
    KeptAll(its[0], its);
  }

  lemma {:induction false} KeptAll(s: seq<nat>, its: seq<seq<nat>>)
    requires forall x :: x in s ==> InAll(x, its)
    ensures Kept(s, its) == s
    decreases |s|
  {
    if s != [] {
      KeptAll(s[..|s| - 1], its);
    }
  }

  /** The state of the search: what the iterators still hold, the heap of
      their current elements and the result so far. */
  ghost predicate Running(its: seq<seq<nat>>, forward: bool, pos: seq<nat>, iters: seq<seq<nat>>, heap: seq<Entry>,
                          ret: seq<nat>)
  {
    && |its| >= 2
    && Delivered(its, pos) && Remaining(its, pos, iters)
    && Holds(heap, Heads(its, pos)) && InOrder(forward, heap)
    && (AllMono(forward, its) ==> Progress(its, forward, Heads(its, pos), ret))
  }

  /** A hit is kept and every iterator advanced. */
  method OnHit(ghost its: seq<seq<nat>>, forward: bool, ghost pos: seq<nat>, iters: seq<seq<nat>>, heap: seq<Entry>,
               ret: seq<nat>)
    returns (more: bool, ghost pos': seq<nat>, iters': seq<seq<nat>>, heap': seq<Entry>, ret': seq<nat>)
    requires Running(its, forward, pos, iters, heap, ret)
    requires heap != [] && forall i :: 0 <= i < |heap| ==> heap[i].0 == heap[0].0
    ensures |ret'| == |ret| + 1
    ensures more ==> Running(its, forward, pos', iters', heap', ret') && Left(iters') < Left(iters)
    ensures !more && AllMono(forward, its) ==> ret' == Shared(its)
  {
    hide Progress, Shared, Left, AllMono;
    HitHeads(heap, Heads(its, pos));
    ret' := ret + [heap[|heap| - 1].0];
    pos' := pos;
    more, iters', heap' := FillHeap(iters, forward);
    if !more {
      ghost var k :| 0 <= k < |its| && iters[k] == [];
      if AllMono(forward, its) {
        HitExhausted(its, forward, pos, ret, k);
      }
      return;
    }
    LeftLess(iters, iters', 0);
    pos' := seq(|its|, k requires 0 <= k < |its| => pos[k] + 1);
    if AllMono(forward, its) {
      AfterHit(its, forward, pos, ret, pos');
    }
    assert Heads(its, pos') == seq(|iters|, k requires 0 <= k < |iters| => iters[k][0]);
  }

  /** Otherwise the iterator that lags behind is advanced. */
  method OnMiss(ghost its: seq<seq<nat>>, forward: bool, ghost pos: seq<nat>, iters: seq<seq<nat>>, heap: seq<Entry>,
                ghost ret: seq<nat>)
    returns (more: bool, ghost pos': seq<nat>, iters': seq<seq<nat>>, heap': seq<Entry>)
    requires Running(its, forward, pos, iters, heap, ret)
    requires heap != [] && exists i :: 0 <= i < |heap| && heap[i].0 != heap[0].0
    ensures more ==> Running(its, forward, pos', iters', heap', ret) && Left(iters') < Left(iters)
    ensures !more && AllMono(forward, its) ==> ret == Shared(its)
  {
    hide Progress, Shared, Left, AllMono, Heapify;
    pos', iters', heap' := pos, iters, heap;
    ghost var j := PopLags(heap, Heads(its, pos), forward);
    var n := |heap| - 1;
    var k := heap[n].1;
    assert heap[n] in heap;
    if iters[k] == [] {
      if AllMono(forward, its) {
        MissExhausted(its, forward, pos, ret, k, j);
      }
      return false, pos', iters', heap';
    }
    var x := iters[k][0];
    if AllMono(forward, its) {
      AfterMiss(its, forward, pos, ret, k, j);
    }
    HeadMoves(its, pos, k);
    HoldsReplaced(heap, Heads(its, pos), x);
    iters' := iters[k := iters[k][1..]];
    LeftLess(iters, iters', k);
    var next := heap[..n] + [(x, k)];
    HeapifyIs(forward, next);
    HoldsPermuted(next, Heapify(forward, next), Heads(its, pos)[k := x]);
    heap' := Heapify(forward, next);
    pos' := pos[k := pos[k] + 1];
    more := true;
  }

  /** The part of `sorted_intersect` that needs the heap. */
  method IntersectMany(its: seq<seq<nat>>, limit: nat, forward: bool) returns (ret: seq<nat>)
    requires |its| >= 2
    ensures AllMono(forward, its) ==> ret == Take(Shared(its), limit)
  {
    hide Progress, Shared, AllMono, Left;
    ret := [];
    var ok, iters, heap := FillHeap(its, forward);
    if !ok {
      ghost var k :| 0 <= k < |its| && its[k] == [];
      if AllMono(forward, its) {
        NothingInCommon(its, forward, k);
      }
      return;
    }
    ghost var pos := seq(|its|, _ => 1);
    assert Heads(its, pos) == seq(|its|, k requires 0 <= k < |its| => its[k][0]);
    if AllMono(forward, its) {
      AtStart(its, forward, pos);
    }
    while |ret| < limit
      invariant Running(its, forward, pos, iters, heap, ret) && |ret| <= limit
      decreases Left(iters)
    {
      var more;
      var hit := IsHit(heap);
      if hit {
        more, pos, iters, heap, ret := OnHit(its, forward, pos, iters, heap, ret);
      } else {
        more, pos, iters, heap := OnMiss(its, forward, pos, iters, heap, ret);
      }
      if !more {
        return;
      }
    }
    if AllMono(forward, its) {
      ProgressTakes(its, forward, Heads(its, pos), ret);
    }
  }

  lemma ProgressTakes(its: seq<seq<nat>>, forward: bool, heads: seq<nat>, ret: seq<nat>)
    requires Progress(its, forward, heads, ret)
    ensures ret == Take(Shared(its), |ret|)
  {
  }
}
