/** The call tree of a memory report: built from stacks, stripped of small
    nodes and sorted for display. */
module FrameReports {
  import opened Wrappers
  import opened Sums

  type Frame = nat

  /** What is accounted: all memory, and the page cache among it. */
  datatype Amount = Amount(value: nat, cache: nat)

  const ZERO := Amount(0, 0)

  function Plus(a: Amount, b: Amount): Amount {
    Amount(a.value + b.value, a.cache + b.cache)
  }

  lemma PlusAssoc(a: Amount, b: Amount, c: Amount)
    ensures Plus(Plus(a, b), c) == Plus(a, Plus(b, c)) && Plus(a, b) == Plus(b, a)
  {
  }

  lemma PlusZero(a: Amount)
    ensures Plus(a, ZERO) == a == Plus(ZERO, a)
  {
  }

  datatype Tree = Node(amount: Amount, frames: map<Frame, Tree>, under: Amount)

  const LEAF := Node(ZERO, map[], ZERO)

  function Child(t: Tree, f: Frame): Tree {
    if f in t.frames then t.frames[f] else LEAF
  }

  /** `insert`: every node along the stack, the root included, takes the amount. */
  function Inserted(t: Tree, stack: seq<Frame>, a: Amount): Tree
    decreases |stack|
  {
    var t' := t.(amount := Plus(t.amount, a));
    if stack == [] then t'
    else t'.(frames := t.frames[stack[0] := Inserted(Child(t, stack[0]), stack[1..], a)])
  }

  datatype Entry = Entry(stack: seq<Frame>, amount: Amount)

  function Built(es: seq<Entry>): Tree {
    if es == [] then LEAF
    else Inserted(Built(es[..|es| - 1]), es[|es| - 1].stack, es[|es| - 1].amount)
  }

  // ---------------------------------------------------------------- a node is the sum of its prefix

  function At(t: Tree, path: seq<Frame>): Option<Tree> {
    if path == [] then Some(t)
    else if path[0] in t.frames then At(t.frames[path[0]], path[1..])
    else None
  }

  /** All that a tree says about a path. */
  function Info(t: Tree, path: seq<Frame>): Option<(Amount, Amount)> {
    match At(t, path)
    case None => None
    case Some(n) => Some((n.amount, n.under))
  }

  /** The sum of the amounts of all stacks that begin with `path`. */
  function PrefixSum(es: seq<Entry>, path: seq<Frame>): Amount {
    if es == [] then ZERO
    else Plus(PrefixSum(es[..|es| - 1], path), Contribution(es[|es| - 1], path))
  }

  function Contribution(e: Entry, path: seq<Frame>): Amount {
    if path <= e.stack then e.amount else ZERO
  }

  predicate Occurs(es: seq<Entry>, path: seq<Frame>) {
    exists i :: 0 <= i < |es| && path <= es[i].stack
  }

  lemma {:induction false} InsertedAt(t: Tree, stack: seq<Frame>, a: Amount, path: seq<Frame>)
    ensures Info(Inserted(t, stack, a), path) ==
            if path <= stack then
              match Info(t, path)
              case None => Some((a, ZERO))
              case Some(i) => Some((Plus(i.0, a), i.1))
            else Info(t, path)
    decreases |path|
  {
    if path != [] {
      if stack != [] && path[0] == stack[0] {
        InsertedAt(Child(t, stack[0]), stack[1..], a, path[1..]);
        assert path <= stack <==> path[1..] <= stack[1..] by {
          assert path == [path[0]] + path[1..] && stack == [stack[0]] + stack[1..];
        }
        if stack[0] !in t.frames {
          LeafAt(path[1..]);
        }
      }
    }
  }

  lemma LeafAt(path: seq<Frame>)
    ensures Info(LEAF, path) == if path == [] then Some((ZERO, ZERO)) else None
  {
  }

  /** After any inserts, the tree has a node for exactly the prefixes of the
      stacks, and each holds the sum over the stacks with that prefix. */
  lemma {:induction false} BuiltAt(es: seq<Entry>, path: seq<Frame>)
    ensures Info(Built(es), path) ==
            if path == [] || Occurs(es, path) then Some((PrefixSum(es, path), ZERO)) else None
    decreases |es|
  {
    hide Plus, Inserted, Info;
    if es == [] {
      LeafAt(path);
    } else {
      var n := |es| - 1;
      BuiltAt(es[..n], path);
      InsertedAt(Built(es[..n]), es[n].stack, es[n].amount, path);
      PlusZero(PrefixSum(es[..n], path));
      PlusZero(es[n].amount);
      assert Occurs(es, path) <==> Occurs(es[..n], path) || path <= es[n].stack by {
        if Occurs(es[..n], path) {
          var i :| 0 <= i < n && path <= es[..n][i].stack;
          assert path <= es[i].stack;
        }
      }
      if path != [] && !Occurs(es[..n], path) {
        NoneSummed(es[..n], path);
      }
    }
  }

  lemma {:induction false} NoneSummed(es: seq<Entry>, path: seq<Frame>)
    requires !Occurs(es, path)
    ensures PrefixSum(es, path) == ZERO
    decreases |es|
  {
    hide Plus;
    if es != [] {
      var n := |es| - 1;
      PlusZero(ZERO);
      assert !(path <= es[n].stack);
      assert forall i :: 0 <= i < n ==> es[..n][i] == es[i];
      NoneSummed(es[..n], path);
    }
  }

  // ---------------------------------------------------------------- order of insertion

  /** A tree is determined by what it says about every path. */
  lemma {:induction false} SameTree(t: Tree, u: Tree)
    requires forall path :: Info(t, path) == Info(u, path)
    ensures t == u
    decreases t
  {
    assert Info(t, []) == Info(u, []);
    forall f ensures f in t.frames <==> f in u.frames {
      assert [f][1..] == [] && [f][0] == f;
      assert At(t, [f]).Some? <==> f in t.frames;
      assert At(u, [f]).Some? <==> f in u.frames;
      assert Info(t, [f]) == Info(u, [f]);
    }
    forall f | f in t.frames ensures t.frames[f] == u.frames[f] {
      forall path ensures Info(t.frames[f], path) == Info(u.frames[f], path) {
        assert ([f] + path)[1..] == path;
        assert Info(t, [f] + path) == Info(u, [f] + path);
      }
      SameTree(t.frames[f], u.frames[f]);
    }
  }

  lemma {:induction false} PrefixSumAppend(a: seq<Entry>, b: seq<Entry>, path: seq<Frame>)
    ensures PrefixSum(a + b, path) == Plus(PrefixSum(a, path), PrefixSum(b, path))
    decreases |b|
  {
    hide Contribution, Plus;
    if b == [] {
      PlusZero(PrefixSum(a, path));
      assert a + b == a;
    } else {
      var n := |b| - 1;
      assert (a + b)[..|a + b| - 1] == a + b[..n] && (a + b)[|a + b| - 1] == b[n];
      PrefixSumAppend(a, b[..n], path);
      PlusAssoc(PrefixSum(a, path), PrefixSum(b[..n], path), Contribution(b[n], path));
    }
  }

  /** Taking the last element of a permutation out of the other one. */
  lemma TakenOut(a: seq<Entry>, b: seq<Entry>) returns (left: seq<Entry>, right: seq<Entry>)
    requires multiset(a) == multiset(b) && a != []
    ensures b == left + ([a[|a| - 1]] + right) && multiset(a[..|a| - 1]) == multiset(left + right)
  {
    var n := |a| - 1;
    var x := a[n];
    assert x in multiset(b);
    var i :| 0 <= i < |b| && b[i] == x;
    left, right := b[..i], b[i + 1..];
    assert a == a[..n] + [x];
    assert b == left + ([x] + right);
    Around(left, x, right);
    Cancel(multiset(a[..n]), multiset(left + right), x);
  }

  lemma Around(left: seq<Entry>, x: Entry, right: seq<Entry>)
    ensures multiset(left + ([x] + right)) == multiset(left + right) + multiset{x}
  {
  }

  lemma Cancel(p: multiset<Entry>, q: multiset<Entry>, x: Entry)
    requires p + multiset{x} == q + multiset{x}
    ensures p == q
  {
    forall y ensures p[y] == q[y] {
      assert (p + multiset{x})[y] == (q + multiset{x})[y];
    }
  }

  lemma {:induction false} PrefixSumPermuted(a: seq<Entry>, b: seq<Entry>, path: seq<Frame>)
    requires multiset(a) == multiset(b)
    ensures PrefixSum(a, path) == PrefixSum(b, path)
    decreases |a|
  {
    hide Contribution, Plus;
    if a == [] {
      assert |multiset(b)| == 0;
    } else {
      var n := |a| - 1;
      var x := a[n];
      assert a == a[..n] + [x];
      var left, right := TakenOut(a, b);
      PrefixSumPermuted(a[..n], left + right, path);
      PrefixSumAppend(a[..n], [x], path);
      PrefixSumAppend(left, right, path);
      PrefixSumAppend(left, [x] + right, path);
      PrefixSumAppend([x], right, path);
      var l, m, r := PrefixSum(left, path), PrefixSum([x], path), PrefixSum(right, path);
      PlusAssoc(l, r, m);
      PlusAssoc(m, r, l);
    }
  }

  lemma OccursPermuted(a: seq<Entry>, b: seq<Entry>, path: seq<Frame>)
    requires multiset(a) == multiset(b) && Occurs(a, path)
    ensures Occurs(b, path)
  {
    var i :| 0 <= i < |a| && path <= a[i].stack;
    assert a[i] in multiset(b);
    var j :| 0 <= j < |b| && b[j] == a[i];
  }

  /** The tree does not depend on the order in which the stacks are inserted. */
  lemma BuiltInAnyOrder(a: seq<Entry>, b: seq<Entry>)
    requires multiset(a) == multiset(b)
    ensures Built(a) == Built(b)
  {
    forall path ensures Info(Built(a), path) == Info(Built(b), path) {
      BuiltAt(a, path);
      BuiltAt(b, path);
      PrefixSumPermuted(a, b, path);
      if Occurs(a, path) {
        OccursPermuted(a, b, path);
      }
      if Occurs(b, path) {
        OccursPermuted(b, a, path);
      }
    }
    SameTree(Built(a), Built(b));
  }

  // ---------------------------------------------------------------- no subtraction underflows

  function Part(a: Amount, cache: bool): nat {
    if cache then a.cache else a.value
  }

  /** The weight of a child: its memory, or its page cache. */
  function Weight(cache: bool): (Frame, Tree) -> nat {
    (f, t: Tree) => Part(t.amount, cache)
  }

  /** The children and what was stripped never exceed the node. */
  ghost predicate Balanced(t: Tree) {
    && Total(t.frames, Weight(false)) + t.under.value <= t.amount.value
    && Total(t.frames, Weight(true)) + t.under.cache <= t.amount.cache
    && forall f :: f in t.frames ==> Balanced(t.frames[f])
  }

  lemma LeafBalanced()
    ensures Balanced(LEAF)
  {
  }

  lemma FramesGrow(frames: map<Frame, Tree>, f: Frame, old': Tree, new': Tree, a: Amount, cache: bool)
    requires old' == (if f in frames then frames[f] else LEAF) && new'.amount == Plus(old'.amount, a)
    ensures Total(frames[f := new'], Weight(cache)) == Total(frames, Weight(cache)) + Part(a, cache)
  {
    if f in frames {
      Replaced(frames, Weight(cache), f, new');
    } else {
      Added(frames, Weight(cache), f, new');
    }
  }

  lemma {:induction false} InsertedBalanced(t: Tree, stack: seq<Frame>, a: Amount)
    requires Balanced(t)
    ensures Balanced(Inserted(t, stack, a))
    decreases |stack|
  {
    var t' := Inserted(t, stack, a);
    if stack != [] {
      var f := stack[0];
      LeafBalanced();
      InsertedBalanced(Child(t, f), stack[1..], a);
      var c' := Inserted(Child(t, f), stack[1..], a);
      FramesGrow(t.frames, f, Child(t, f), c', a, false);
      FramesGrow(t.frames, f, Child(t, f), c', a, true);
    }
  }

  lemma {:induction false} BuiltBalanced(es: seq<Entry>)
    ensures Balanced(Built(es))
    decreases |es|
  {
    hide Balanced;
    if es == [] {
      LeafBalanced();
    } else {
      BuiltBalanced(es[..|es| - 1]);
      InsertedBalanced(Built(es[..|es| - 1]), es[|es| - 1].stack, es[|es| - 1].amount);
    }
  }

  // ---------------------------------------------------------------- stripping

  ghost function Small(frames: map<Frame, Tree>, threshold: nat): map<Frame, Tree> {
    map f | f in frames && frames[f].amount.value < threshold :: frames[f]
  }

  ghost function Stripped(t: Tree, threshold: nat): Tree {
    var dropped := Small(t.frames, threshold);
    Node(t.amount,
         map f | f in t.frames && t.frames[f].amount.value >= threshold :: Stripped(t.frames[f], threshold),
         Amount(Total(dropped, Weight(false)), Total(dropped, Weight(true))))
  }

  lemma {:induction false} SmallerBelow(t: Tree, path: seq<Frame>)
    requires Balanced(t) && At(t, path).Some?
    ensures At(t, path).value.amount.value <= t.amount.value
    decreases |path|
  {
    if path != [] {
      AtMost(t.frames, Weight(false), path[0]);
      SmallerBelow(t.frames[path[0]], path[1..]);
    }
  }

  /** In a balanced tree exactly the nodes of at least the threshold survive
      below the root, with what they held. */
  lemma {:induction false} StrippedAt(t: Tree, threshold: nat, path: seq<Frame>)
    requires Balanced(t)
    ensures var n, n' := At(t, path), At(Stripped(t, threshold), path);
            && (n'.Some? <==> n.Some? && (path == [] || n.value.amount.value >= threshold))
            && (n'.Some? ==> n'.value == Stripped(n.value, threshold))
    decreases |path|
  {
    if path != [] && path[0] in t.frames {
      var c := t.frames[path[0]];
      StrippedAt(c, threshold, path[1..]);
      if At(c, path[1..]).Some? {
        SmallerBelow(c, path[1..]);
      }
    }
  }

  /** Stripping moves the small children into the remainder, no more and no less. */
  lemma StrippedSum(t: Tree, threshold: nat, cache: bool)
    ensures var s := Stripped(t, threshold);
            Total(s.frames, Weight(cache)) + Part(s.under, cache) == Total(t.frames, Weight(cache))
  {
    hide Total, Stripped, Weight;
    var s, w, keys := Stripped(t, threshold), Weight(cache), Stripped(t, threshold).frames.Keys;
    StrippedShape(t, threshold, cache);
    Split(t.frames, w, keys);
    var kept := map f | f in t.frames && f in keys :: t.frames[f];
    Same(kept, w, s.frames, w);
  }

  lemma StrippedShape(t: Tree, threshold: nat, cache: bool)
    ensures var s, w := Stripped(t, threshold), Weight(cache);
            && s.frames.Keys <= t.frames.Keys && t.frames - s.frames.Keys == Small(t.frames, threshold)
            && Part(s.under, cache) == Total(Small(t.frames, threshold), w)
            && forall f :: f in s.frames ==> w(f, s.frames[f]) == w(f, t.frames[f])
  {
    hide Total;
    var s := Stripped(t, threshold);
    if cache {
    } else {
    }
    forall f | f in s.frames ensures s.frames[f].amount == t.frames[f].amount {
      StrippedAmount(t.frames[f], threshold);
    }
  }

  lemma {:induction false} StrippedBalanced(t: Tree, threshold: nat)
    requires Balanced(t)
    ensures Balanced(Stripped(t, threshold))
    decreases t
  {
    StrippedSum(t, threshold, false);
    StrippedSum(t, threshold, true);
    forall f | f in t.frames ensures Balanced(Stripped(t.frames[f], threshold)) {
      StrippedBalanced(t.frames[f], threshold);
    }
  }

  /** What survives of a report: exactly the prefixes whose sum reaches the
      threshold. */
  lemma Survivors(es: seq<Entry>, threshold: nat, path: seq<Frame>)
    requires path != []
    ensures var n := At(Stripped(Built(es), threshold), path);
            && (n.Some? <==> Occurs(es, path) && PrefixSum(es, path).value >= threshold)
            && (n.Some? ==> n.value.amount == PrefixSum(es, path))
  {
    BuiltBalanced(es);
    BuiltAt(es, path);
    StrippedAt(Built(es), threshold, path);
  }

  lemma RootSum(es: seq<Entry>, threshold: nat)
    ensures Stripped(Built(es), threshold).amount == PrefixSum(es, [])
  {
    BuiltAt(es, []);
  }

  /** The children looked at so far: the small ones dropped, the others kept. */
  ghost predicate StrippedSoFar(t: Tree, threshold: nat, left: set<Frame>, frames: map<Frame, Tree>,
                                dropped: map<Frame, Tree>)
  {
    && left <= t.frames.Keys
    && dropped == (map f | f in t.frames && f !in left && t.frames[f].amount.value < threshold :: t.frames[f])
    && frames ==
       (map f | f in t.frames && f !in left && t.frames[f].amount.value >= threshold :: Stripped(t.frames[f], threshold))
  }

  ghost function Totals(frames: map<Frame, Tree>): Amount {
    Amount(Total(frames, Weight(false)), Total(frames, Weight(true)))
  }

  lemma TotalsAdded(frames: map<Frame, Tree>, f: Frame, t: Tree)
    requires f !in frames
    ensures Totals(frames[f := t]) == Plus(Totals(frames), t.amount)
  {
    Added(frames, Weight(false), f, t);
    Added(frames, Weight(true), f, t);
  }

  /** `strip`. */
  method Strip(t: Tree, threshold: nat) returns (s: Tree)
    ensures s == Stripped(t, threshold)
    decreases t
  {
    hide Total, Totals, Stripped;
    var frames: map<Frame, Tree> := map[];
    var under := ZERO;
    var left := t.frames.Keys;
    ghost var dropped: map<Frame, Tree> := map[];
    NoTotals();
    while left != {}
      invariant StrippedSoFar(t, threshold, left, frames, dropped) && under == Totals(dropped)
      decreases left
    {
      var f :| f in left;
      left := left - {f};
      var c := Strip(t.frames[f], threshold);
      StrippedAmount(t.frames[f], threshold);
      if c.amount.value >= threshold {
        frames := frames[f := c];
      } else {
        TotalsAdded(dropped, f, t.frames[f]);
        dropped := dropped[f := t.frames[f]];
        under := Plus(under, c.amount);
      }
    }
    s := Node(t.amount, frames, under);
    StrippedWhole(t, threshold, frames, dropped);
  }

  lemma NoTotals()
    ensures Totals(map[]) == ZERO
  {
  }

  lemma StrippedAmount(t: Tree, threshold: nat)
    ensures Stripped(t, threshold).amount == t.amount
  {
  }

  lemma StrippedWhole(t: Tree, threshold: nat, frames: map<Frame, Tree>, dropped: map<Frame, Tree>)
    requires StrippedSoFar(t, threshold, {}, frames, dropped)
    ensures Stripped(t, threshold) == Node(t.amount, frames, Totals(dropped))
  {
    hide Total;
    assert dropped == Small(t.frames, threshold);
  }
}
