/** The call tree reported by the allocation tracker, in terms of the live pages. */
module TreeReports {
  import opened Sums
  import opened Pages
  import opened PageTraces
  import opened FrameReports
  import A = Allocation

  function Reversed(s: Stack): Stack {
    if s == [] then [] else Reversed(s[1..]) + [s[0]]
  }

  /** Reversing puts position `k` at `k` from the end, so the paths of a reversed
      stack are its suffixes read backwards. */
  lemma {:induction false} ReversedAt(s: Stack, k: nat)
    requires k < |s|
    ensures |Reversed(s)| == |s| && Reversed(s)[k] == s[|s| - 1 - k]
    ensures Reversed(s)[..k + 1] == Reversed(s[|s| - 1 - k..])
    decreases |s|
  {
    ReversedLength(s[1..]);
    if k < |s| - 1 {
      ReversedAt(s[1..], k);
      assert s[1..][|s| - 2 - k..] == s[|s| - 1 - k..];
    } else {
      assert s[0..] == s;
      assert Reversed(s)[..k + 1] == Reversed(s);
    }
  }

  lemma {:induction false} ReversedLength(s: Stack)
    ensures |Reversed(s)| == |s|
  {
    if s != [] {
      ReversedLength(s[1..]);
    }
  }

  function Listed(s: Stack, reverse: bool): Stack {
    if reverse then Reversed(s) else s
  }

  function CounterOf(u: A.Usage, path: Stack, reverse: bool, cache: bool): nat {
    if path <= Listed(u.stack, reverse) then (if cache then u.cache else u.node) else 0
  }

  /** What the usages of the stacks with a prefix count. */
  function Counters(path: Stack, reverse: bool, cache: bool): (nat, A.Usage) -> nat {
    (h, u) => CounterOf(u, path, reverse, cache)
  }

  /** The frames of a live page, if its stack has the prefix. */
  function FramesUnder(p: Page, held: Held, path: Stack, reverse: bool): nat {
    if path <= Listed(held.stack, reverse) then Number(p) else 0
  }

  function Under(path: Stack, reverse: bool): (Page, Held) -> nat {
    (p, held) => FramesUnder(p, held, path, reverse)
  }

  // ---------------------------------------------------------------- counters and pages

  function Attributed(g: A.Groups, p: Page, s: A.PageState, path: Stack, reverse: bool): nat {
    if s.hash in g.group && path <= Listed(g.group[s.hash].stack, reverse) then Number(p) else 0
  }

  function AttributedUnder(g: A.Groups, path: Stack, reverse: bool): (Page, A.PageState) -> nat {
    (p, s) => Attributed(g, p, s, path, reverse)
  }

  /** A stack with the prefix contributes its counter, any other nothing. */
  lemma CounterIsShare(g: A.Groups, path: Stack, reverse: bool, h: nat)
    requires A.Inv(g) && h in g.group
    ensures Share(g.lastStack, AttributedUnder(g, path, reverse), A.HashIn(), h) ==
            CounterOf(g.group[h], path, reverse, false)
  {
    hide Total, Number, Order, Listed, A.Injective, A.Linked;
    var w := InGroup(AttributedUnder(g, path, reverse), A.HashIn(), h);
    if path <= Listed(g.group[h].stack, reverse) {
      Same(g.lastStack, w, g.lastStack, InGroup(A.Frames(), A.HashIn(), h));
      assert g.group[h].node == A.Attributed(g, h);
    } else {
      Zero(g.lastStack, w);
    }
  }

  /** The counters of all stacks with a prefix count the live pages with it. */
  lemma CountersAreLive(g: A.Groups, live: map<Page, Held>, path: Stack, reverse: bool)
    requires A.Inv(g) && A.Shows(g, live)
    ensures Total(g.group, Counters(path, reverse, false)) == Total(live, Under(path, reverse))
  {
    hide Total, Number, Order, Listed, A.Exact, A.Injective;
    var w := AttributedUnder(g, path, reverse);
    var shares := Shares(g.lastStack, w, A.HashIn(), g.group.Keys);
    forall h | h in g.group ensures Counters(path, reverse, false)(h, g.group[h]) == shares[h] {
      CounterIsShare(g, path, reverse, h);
    }
    Same(g.group, Counters(path, reverse, false), shares, Itself());
    SharesAddUp(g.lastStack, w, A.HashIn(), g.group.Keys);
    forall p | p in g.lastStack ensures w(p, g.lastStack[p]) == Under(path, reverse)(p, live[p]) {
      assert A.HeldAs(g, p, live[p]);
    }
    Same(g.lastStack, w, live, Under(path, reverse));
  }

  // ---------------------------------------------------------------- the report

  predicate HasStack(done: map<nat, A.Usage>, path: Stack, reverse: bool) {
    exists h :: h in done && path <= Listed(done[h].stack, reverse)
  }

  /** The stacks inserted so far. */
  ghost predicate Lists(es: seq<Entry>, done: map<nat, A.Usage>, reverse: bool) {
    forall path ::
      && PrefixSum(es, path).value == 4 * Total(done, Counters(path, reverse, false))
      && PrefixSum(es, path).cache == 4 * Total(done, Counters(path, reverse, true))
      && (Occurs(es, path) <==> HasStack(done, path, reverse))
  }

  lemma ListsNothing(reverse: bool)
    ensures Lists([], map[], reverse)
  {
    var none: map<nat, A.Usage> := map[];
    forall path ensures Total(none, Counters(path, reverse, false)) == 0 == Total(none, Counters(path, reverse, true)) {
    }
  }

  lemma ListsMore(es: seq<Entry>, done: map<nat, A.Usage>, reverse: bool, h: nat, u: A.Usage)
    requires Lists(es, done, reverse) && h !in done
    ensures Lists(es + [Entry(Listed(u.stack, reverse), Amount(u.node * 4, u.cache * 4))], done[h := u], reverse)
  {
    hide Total, Listed, PrefixSum, Occurs;
    var e := Entry(Listed(u.stack, reverse), Amount(u.node * 4, u.cache * 4));
    forall path
      ensures PrefixSum(es + [e], path).value == 4 * Total(done[h := u], Counters(path, reverse, false))
      ensures PrefixSum(es + [e], path).cache == 4 * Total(done[h := u], Counters(path, reverse, true))
      ensures Occurs(es + [e], path) <==> HasStack(done[h := u], path, reverse)
    {
      Pushed(es, e, path);
      Added(done, Counters(path, reverse, false), h, u);
      Added(done, Counters(path, reverse, true), h, u);
      OccursMore(done, reverse, h, u, path);
    }
  }

  lemma OccursMore(done: map<nat, A.Usage>, reverse: bool, h: nat, u: A.Usage, path: Stack)
    requires h !in done
    ensures HasStack(done[h := u], path, reverse) <==> HasStack(done, path, reverse) || path <= Listed(u.stack, reverse)
  {
    hide Listed;
    var more := done[h := u];
    if HasStack(done, path, reverse) {
      var k :| k in done && path <= Listed(done[k].stack, reverse);
      assert k in more && path <= Listed(more[k].stack, reverse);
    }
    if path <= Listed(u.stack, reverse) {
      assert h in more && path <= Listed(more[h].stack, reverse);
    }
  }

  lemma Pushed(es: seq<Entry>, e: Entry, path: Stack)
    ensures PrefixSum(es + [e], path) == Plus(PrefixSum(es, path), Contribution(e, path))
    ensures Occurs(es + [e], path) <==> Occurs(es, path) || path <= e.stack
  {
    hide Plus, Contribution;
    assert (es + [e])[..|es|] == es;
    if Occurs(es, path) {
      var i :| 0 <= i < |es| && path <= es[i].stack;
      assert (es + [e])[i] == es[i];
    }
    if path <= e.stack {
      assert (es + [e])[|es|] == e;
    }
  }

  /** `tree_report`: below the root there is a node for a path exactly when the
      live pages of the stacks with that prefix reach the threshold (and
      there is such a stack), and it holds four KiB for each of their frames. */
  method TreeReport(g: A.Groups, ghost live: map<Page, Held>, threshold: nat, reverse: bool) returns (t: Tree)
    requires A.Inv(g) && A.Shows(g, live)
    ensures t.amount.value == 4 * Total(live, Under([], reverse))
    ensures forall path :: path != [] ==>
              && (At(t, path).Some? <==>
                    4 * Total(live, Under(path, reverse)) >= threshold &&
                    HasStack(g.group, path, reverse))
              && (At(t, path).Some? ==> At(t, path).value.amount.value == 4 * Total(live, Under(path, reverse)))
  {
    hide Total, Listed, PrefixSum, Occurs, Inserted, Lists, At, Stripped, A.Inv, A.Shows;
    t := LEAF;
    var left := g.group;
    ghost var es: seq<Entry> := [];
    ghost var done: map<nat, A.Usage> := map[];
    ListsNothing(reverse);
    while left != map[]
      invariant Lists(es, done, reverse) && t == Built(es)
      invariant left.Keys !! done.Keys && left + done == g.group
      decreases left.Keys
    {
      var h :| h in left;
      var u := left[h];
      var e := Entry(Listed(u.stack, reverse), Amount(u.node * 4, u.cache * 4));
      t := Inserted(t, e.stack, e.amount);
      ListsMore(es, done, reverse, h, u);
      assert (es + [e])[..|es|] == es;
      es, done, left := es + [e], done[h := u], left - {h};
    }
    assert done == g.group;
    Reported(g, live, es, threshold, reverse);
    t := Strip(t, threshold);
  }

  lemma Reported(g: A.Groups, live: map<Page, Held>, es: seq<Entry>, threshold: nat, reverse: bool)
    requires A.Inv(g) && A.Shows(g, live) && Lists(es, g.group, reverse)
    ensures var t := Stripped(Built(es), threshold);
            && t.amount.value == 4 * Total(live, Under([], reverse))
            && forall path :: path != [] ==>
                 && (At(t, path).Some? <==>
                       4 * Total(live, Under(path, reverse)) >= threshold &&
                       HasStack(g.group, path, reverse))
                 && (At(t, path).Some? ==> At(t, path).value.amount.value == 4 * Total(live, Under(path, reverse)))
  {
    hide Total, Listed, PrefixSum, Occurs, Built, Stripped, A.Inv, A.Shows, At;
    var t := Stripped(Built(es), threshold);
    CountersAreLive(g, live, [], reverse);
    RootSum(es, threshold);
    forall path | path != []
      ensures At(t, path).Some? <==>
                4 * Total(live, Under(path, reverse)) >= threshold &&
                HasStack(g.group, path, reverse)
      ensures At(t, path).Some? ==> At(t, path).value.amount.value == 4 * Total(live, Under(path, reverse))
    {
      CountersAreLive(g, live, path, reverse);
      Survivors(es, threshold, path);
    }
  }
}
