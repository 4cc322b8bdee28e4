/** Sorting a call tree for display: children keyed by size and name, and the
    part of a node that no resolved child explains. */
module SortedReports {
  import opened Wrappers
  import opened Sums
  import opened FrameReports
  import opened StackResolving

  type Name = SymbolInfo

  /** Children are keyed by their size (largest first) and their name. */
  datatype SortKey = SortKey(value: nat, name: Name)

  datatype Sorted = Sorted(
    name: Option<Name>,
    amount: Amount,
    frames: map<SortKey, Sorted>,
    under: Amount,
    unknown: Amount)

  type Resolver = Frame -> Option<Name>

  /** The children whose frames can be named. */
  ghost function Named(frames: map<Frame, Tree>, resolve: Resolver): map<Frame, Tree> {
    map f | f in frames && resolve(f).Some? :: frames[f]
  }

  function KeyOf(f: Frame, t: Tree, resolve: Resolver): SortKey
    requires resolve(f).Some?
  {
    SortKey(t.amount.value, resolve(f).value)
  }

  /** `r` displays `t`: nothing is changed but the remainder is computed, and
      every named child is there under its key, or another one in its place. */
  ghost predicate Displays(t: Tree, resolve: Resolver, name: Option<Name>, r: Sorted)
    decreases t, 1
  {
    && r.name == name && r.amount == t.amount && r.under == t.under
    && Plus(Plus(r.unknown, Totals(Named(t.frames, resolve))), t.under) == t.amount
    && (forall f :: f in t.frames && resolve(f).Some? ==> KeyOf(f, t.frames[f], resolve) in r.frames)
    && ChildrenOf(t, resolve, r.frames)
  }

  /** Everything shown is a child with that key. */
  ghost predicate ChildrenOf(t: Tree, resolve: Resolver, frames: map<SortKey, Sorted>)
    decreases t, 0
  {
    forall k :: k in frames ==>
      exists f :: f in t.frames && resolve(f) == Some(k.name) && t.frames[f].amount.value == k.value &&
                  Displays(t.frames[f], resolve, Some(k.name), frames[k])
  }

  // ---------------------------------------------------------------- `sorted`

  function Minus(a: Amount, b: Amount): Amount
    requires a.value >= b.value && a.cache >= b.cache
  {
    Amount(a.value - b.value, a.cache - b.cache)
  }

  predicate Covers(a: Amount, b: Amount) {
    a.value >= b.value && a.cache >= b.cache
  }

  /** The children still to be visited fit into what is left unexplained. */
  ghost predicate Displaying(t: Tree, resolve: Resolver, left: map<Frame, Tree>, done: map<Frame, Tree>,
                             frames: map<SortKey, Sorted>, unknown: Amount)
  {
    && left.Keys <= t.frames.Keys && (forall f :: f in left ==> left[f] == t.frames[f])
    && done == Named(t.frames - left.Keys, resolve)
    && Plus(Plus(unknown, Totals(done)), t.under) == t.amount
    && Covers(unknown, Totals(left))
    && (forall f :: f in done ==> KeyOf(f, done[f], resolve) in frames)
    && ChildrenOf(t, resolve, frames)
  }

  lemma TotalsPick(frames: map<Frame, Tree>, f: Frame)
    requires f in frames
    ensures Totals(frames) == Plus(frames[f].amount, Totals(frames - {f}))
  {
    Pick(frames, Weight(false), f);
    Pick(frames, Weight(true), f);
  }

  /** A child without a name stays unexplained. */
  lemma Unnamed(t: Tree, resolve: Resolver, left: map<Frame, Tree>, done: map<Frame, Tree>,
                frames: map<SortKey, Sorted>, unknown: Amount, f: Frame)
    requires Displaying(t, resolve, left, done, frames, unknown) && f in left && resolve(f).None?
    ensures Displaying(t, resolve, left - {f}, done, frames, unknown)
  {
    hide Totals, Displays, ChildrenOf;
    TotalsPick(left, f);
    assert Named(t.frames - (left - {f}).Keys, resolve) == done;
  }

  /** A named child is taken out of what is unexplained. */
  lemma NamedChild(t: Tree, resolve: Resolver, left: map<Frame, Tree>, done: map<Frame, Tree>,
                   frames: map<SortKey, Sorted>, unknown: Amount, f: Frame, r: Sorted)
    requires Displaying(t, resolve, left, done, frames, unknown) && f in left && resolve(f).Some?
    requires Displays(left[f], resolve, resolve(f), r)
    ensures Covers(unknown, left[f].amount)
    ensures Displaying(t, resolve, left - {f}, done[f := left[f]], frames[KeyOf(f, left[f], resolve) := r],
                       Minus(unknown, left[f].amount))
  {
    hide Totals, Displays;
    TotalsPick(left, f);
    TotalsAdded(done, f, left[f]);
    assert Named(t.frames - (left - {f}).Keys, resolve) == done[f := left[f]];
    assert f in t.frames && t.frames[f] == left[f];
  }

  lemma NothingDone(t: Tree, resolve: Resolver)
    requires Balanced(t)
    ensures Covers(t.amount, t.under)
    ensures Displaying(t, resolve, t.frames, map[], map[], Minus(t.amount, t.under))
  {
    hide Total;
    NoTotals();
    assert Named(t.frames - t.frames.Keys, resolve) == map[];
  }

  lemma AllDone(t: Tree, resolve: Resolver, name: Option<Name>, done: map<Frame, Tree>, frames: map<SortKey, Sorted>,
                unknown: Amount)
    requires Displaying(t, resolve, map[], done, frames, unknown)
    ensures Displays(t, resolve, name, Sorted(name, t.amount, frames, t.under, unknown))
  {
    hide Totals, Displays, ChildrenOf;
    assert Named(t.frames, resolve) == done;
    forall f | f in t.frames && resolve(f).Some? ensures KeyOf(f, t.frames[f], resolve) in frames {
      assert f in done;
    }
    Folded(t, resolve, name, Sorted(name, t.amount, frames, t.under, unknown));
  }

  lemma Folded(t: Tree, resolve: Resolver, name: Option<Name>, r: Sorted)
    requires r.name == name && r.amount == t.amount && r.under == t.under
    requires Plus(Plus(r.unknown, Totals(Named(t.frames, resolve))), t.under) == t.amount
    requires forall f :: f in t.frames && resolve(f).Some? ==> KeyOf(f, t.frames[f], resolve) in r.frames
    requires ChildrenOf(t, resolve, r.frames)
    ensures Displays(t, resolve, name, r)
  {
    hide Totals, Named, Plus;
  }

  /** `sorted`: on a balanced tree no subtraction underflows, whatever the order
      in which the children are visited. */
  method SortFrames(t: Tree, resolve: Resolver, name: Option<Name>) returns (r: Sorted)
    requires Balanced(t)
    ensures Displays(t, resolve, name, r)
    decreases t
  {
    hide Displays, Displaying, Totals, Total;
    var frames: map<SortKey, Sorted> := map[];
    NothingDone(t, resolve);
    var unknown := Minus(t.amount, t.under);
    var left := t.frames;
    ghost var done: map<Frame, Tree> := map[];
    while left != map[]
      invariant Displaying(t, resolve, left, done, frames, unknown)
      decreases left.Keys
    {
      var f :| f in left;
      InTree(t, resolve, left, done, frames, unknown, f);
      var c := left[f];
      var n := resolve(f);
      if n.Some? {
        var s := SortFrames(c, resolve, n);
        NamedChild(t, resolve, left, done, frames, unknown, f, s);
        frames := frames[KeyOf(f, c, resolve) := s];
        unknown := Minus(unknown, c.amount);
        done := done[f := c];
      } else {
        Unnamed(t, resolve, left, done, frames, unknown, f);
      }
      left := left - {f};
    }
    AllDone(t, resolve, name, done, frames, unknown);
    r := Sorted(name, t.amount, frames, t.under, unknown);
  }

  lemma InTree(t: Tree, resolve: Resolver, left: map<Frame, Tree>, done: map<Frame, Tree>,
               frames: map<SortKey, Sorted>, unknown: Amount, f: Frame)
    requires Displaying(t, resolve, left, done, frames, unknown) && f in left && Balanced(t)
    ensures f in t.frames && t.frames[f] == left[f] && Balanced(left[f])
  {
  }

  // ---------------------------------------------------------------- what the display loses

  function SortedWeight(cache: bool): (SortKey, Sorted) -> nat {
    (k, r: Sorted) => Part(r.amount, cache)
  }

  /** The child that ended up under each key. */
  ghost function Shown(t: Tree, resolve: Resolver, name: Option<Name>, r: Sorted): (m: map<SortKey, Frame>)
    requires Displays(t, resolve, name, r)
    ensures m.Keys == r.frames.Keys
    ensures forall k :: k in m ==>
              m[k] in t.frames && resolve(m[k]) == Some(k.name) && t.frames[m[k]].amount == r.frames[k].amount &&
              t.frames[m[k]].amount.value == k.value
  {
    map k | k in r.frames :: ShownUnder(t, resolve, name, r, k)
  }

  ghost function ShownUnder(t: Tree, resolve: Resolver, name: Option<Name>, r: Sorted, k: SortKey): (f: Frame)
    requires Displays(t, resolve, name, r) && k in r.frames
    ensures f in t.frames && resolve(f) == Some(k.name) && t.frames[f].amount == r.frames[k].amount &&
            t.frames[f].amount.value == k.value
  {
    assert ChildrenOf(t, resolve, r.frames);
    var f :| f in t.frames && resolve(f) == Some(k.name) && t.frames[f].amount.value == k.value &&
             Displays(t.frames[f], resolve, Some(k.name), r.frames[k]);
    f
  }

  /** The named children that another one with the same key replaced. */
  ghost function Lost(t: Tree, resolve: Resolver, name: Option<Name>, r: Sorted): map<Frame, Tree>
    requires Displays(t, resolve, name, r)
  {
    Named(t.frames, resolve) - Shown(t, resolve, name, r).Values
  }

  ghost function Restricted(frames: map<Frame, Tree>, fs: set<Frame>): map<Frame, Tree> {
    map f | f in frames && f in fs :: frames[f]
  }

  /** Every node of the display: memory is the stripped part, the unexplained
      part, the children shown, and the children lost to an equal key. */
  lemma DisplaySum(t: Tree, resolve: Resolver, name: Option<Name>, r: Sorted, cache: bool)
    requires Displays(t, resolve, name, r)
    ensures Part(r.amount, cache) ==
            Part(r.under, cache) + Part(r.unknown, cache) + Total(r.frames, SortedWeight(cache)) +
            Total(Lost(t, resolve, name, r), Weight(cache))
  {
    hide Total, Displays;
    var m, named, w := Shown(t, resolve, name, r), Named(t.frames, resolve), Weight(cache);
    assert forall k :: k in m ==> m[k] in named && named[m[k]] == t.frames[m[k]];
    assert Restricted(named, m.Values).Keys == m.Values;
    Relabelled(r.frames, SortedWeight(cache), Restricted(named, m.Values), w, m);
    Split(named, w, m.Values);
    assert Restricted(named, m.Values) == map f | f in named && f in m.Values :: named[f];
    Explained(t, resolve, name, r, cache);
  }

  lemma Explained(t: Tree, resolve: Resolver, name: Option<Name>, r: Sorted, cache: bool)
    requires Displays(t, resolve, name, r)
    ensures Part(r.amount, cache) ==
            Part(r.under, cache) + Part(r.unknown, cache) + Total(Named(t.frames, resolve), Weight(cache))
  {
    hide Total, ChildrenOf;
    if cache {
    } else {
    }
  }

  /** Two siblings of the same size and name. */
  predicate Twins(t: Tree, resolve: Resolver, f: Frame, g: Frame) {
    && f in t.frames && g in t.frames && f != g
    && resolve(f).Some? && resolve(f) == resolve(g) && t.frames[f].amount.value == t.frames[g].amount.value
  }

  ghost predicate NoTwins(t: Tree, resolve: Resolver) {
    forall f, g :: Twins(t, resolve, f, g) ==> t.frames[f].amount.value == 0
  }

  /** The children shown, the unexplained part and the stripped part make up a
      node exactly when it has no twins. */
  lemma ValuesAddUp(t: Tree, resolve: Resolver, name: Option<Name>, r: Sorted)
    requires Displays(t, resolve, name, r)
    ensures r.amount.value == r.under.value + r.unknown.value + Total(r.frames, SortedWeight(false)) <==>
            NoTwins(t, resolve)
  {
    hide Total, Displays;
    DisplaySum(t, resolve, name, r, false);
    var lost := Lost(t, resolve, name, r);
    if NoTwins(t, resolve) {
      forall f | f in lost ensures lost[f].amount.value == 0 {
        var g := LostTo(t, resolve, name, r, f);
      }
      Zero(lost, Weight(false));
    } else {
      var f, g :| Twins(t, resolve, f, g) && t.frames[f].amount.value != 0;
      var x := OneLost(t, resolve, name, r, f, g);
      AtMost(lost, Weight(false), x);
    }
  }

  /** A lost child has a twin that is shown. */
  lemma LostTo(t: Tree, resolve: Resolver, name: Option<Name>, r: Sorted, f: Frame) returns (g: Frame)
    requires Displays(t, resolve, name, r) && f in Lost(t, resolve, name, r)
    ensures Twins(t, resolve, f, g)
  {
    var k := KeyOf(f, t.frames[f], resolve);
    assert k in r.frames;
    g := Shown(t, resolve, name, r)[k];
  }

  /** Of two twins at most one is shown. */
  lemma OneLost(t: Tree, resolve: Resolver, name: Option<Name>, r: Sorted, f: Frame, g: Frame) returns (x: Frame)
    requires Displays(t, resolve, name, r)
    requires Twins(t, resolve, f, g)
    ensures x in Lost(t, resolve, name, r) && (x == f || x == g)
  {
    hide Displays;
    var m := Shown(t, resolve, name, r);
    assert forall j, k :: j in m && k in m && m[j] == f && m[k] == g ==> j == k;
    x := if f in m.Values then g else f;
  }

  /** For the page cache of one display: exactly when no lost child holds any. */
  lemma CacheOfDisplay(t: Tree, resolve: Resolver, name: Option<Name>, r: Sorted)
    requires Displays(t, resolve, name, r)
    ensures r.amount.cache == r.under.cache + r.unknown.cache + Total(r.frames, SortedWeight(true)) <==>
            forall f :: f in Lost(t, resolve, name, r) ==> t.frames[f].amount.cache == 0
  {
    hide Total, Displays;
    DisplaySum(t, resolve, name, r, true);
    var lost := Lost(t, resolve, name, r);
    if forall f :: f in lost ==> t.frames[f].amount.cache == 0 {
      Zero(lost, Weight(true));
    } else {
      var f :| f in lost && t.frames[f].amount.cache != 0;
      AtMost(lost, Weight(true), f);
    }
  }

  // ---------------------------------------------------------------- over all orders of visiting

  /** What the named children leave unexplained. */
  ghost function Remainder(t: Tree, resolve: Resolver): (u: Amount)
    requires Balanced(t)
    ensures Plus(Plus(u, Totals(Named(t.frames, resolve))), t.under) == t.amount
  {
    NamedAtMost(t, resolve);
    Minus(Minus(t.amount, t.under), Totals(Named(t.frames, resolve)))
  }

  lemma NamedAtMost(t: Tree, resolve: Resolver)
    requires Balanced(t)
    ensures Covers(t.amount, t.under) && Covers(Minus(t.amount, t.under), Totals(Named(t.frames, resolve)))
  {
    NamedTotal(t.frames, resolve, false);
    NamedTotal(t.frames, resolve, true);
  }

  lemma NamedTotal(frames: map<Frame, Tree>, resolve: Resolver, cache: bool)
    ensures Total(Named(frames, resolve), Weight(cache)) <= Total(frames, Weight(cache))
  {
    hide Total;
    var keys := Named(frames, resolve).Keys;
    Split(frames, Weight(cache), keys);
    assert Restricted(frames, keys) == map f | f in frames && f in keys :: frames[f];
    assert Restricted(frames, keys) == Named(frames, resolve);
  }

  ghost function KeysOf(t: Tree, resolve: Resolver): set<SortKey> {
    set f | f in t.frames && resolve(f).Some? :: KeyOf(f, t.frames[f], resolve)
  }

  ghost function ChildFor(t: Tree, resolve: Resolver, k: SortKey): (f: Frame)
    requires k in KeysOf(t, resolve)
    ensures f in t.frames && resolve(f) == Some(k.name) && t.frames[f].amount.value == k.value
  {
    var f :| f in t.frames && resolve(f).Some? && KeyOf(f, t.frames[f], resolve) == k;
    f
  }

  /** Some order of visiting the children. */
  ghost function OneDisplay(t: Tree, resolve: Resolver, name: Option<Name>): Sorted
    requires Balanced(t)
    decreases t
  {
    Sorted(name, t.amount,
           map k | k in KeysOf(t, resolve) ::
             OneDisplay(t.frames[ChildFor(t, resolve, k)], resolve, Some(k.name)),
           t.under, Remainder(t, resolve))
  }

  /** A balanced tree has a display. */
  lemma {:induction false} OneDisplayIs(t: Tree, resolve: Resolver, name: Option<Name>)
    requires Balanced(t)
    ensures Displays(t, resolve, name, OneDisplay(t, resolve, name))
    decreases t
  {
    hide Totals, Plus;
    var r := OneDisplay(t, resolve, name);
    forall k | k in r.frames
      ensures exists f :: f in t.frames && resolve(f) == Some(k.name) && t.frames[f].amount.value == k.value &&
                          Displays(t.frames[f], resolve, Some(k.name), r.frames[k])
    {
      var f := ChildFor(t, resolve, k);
      OneDisplayIs(t.frames[f], resolve, Some(k.name));
    }
    Folded(t, resolve, name, r);
  }

  /** Whichever of the children with one key is visited last is the one shown. */
  lemma Reshown(t: Tree, resolve: Resolver, name: Option<Name>, r: Sorted, f: Frame, c: Sorted)
    requires Displays(t, resolve, name, r) && f in t.frames && resolve(f).Some?
    requires Displays(t.frames[f], resolve, resolve(f), c)
    ensures Displays(t, resolve, name, r.(frames := r.frames[KeyOf(f, t.frames[f], resolve) := c]))
  {
    hide Totals, Plus, Named;
    var r' := r.(frames := r.frames[KeyOf(f, t.frames[f], resolve) := c]);
    assert ChildrenOf(t, resolve, r.frames);
    assert ChildrenOf(t, resolve, r'.frames);
    Folded(t, resolve, name, r');
  }

  /** The page cache adds up at a node in every order of visiting its children if
      and only if no two twins hold any. */
  lemma CachesAddUp(t: Tree, resolve: Resolver, name: Option<Name>)
    requires Balanced(t)
    ensures (forall r :: Displays(t, resolve, name, r) ==>
               r.amount.cache == r.under.cache + r.unknown.cache + Total(r.frames, SortedWeight(true))) <==>
            (forall f, g :: Twins(t, resolve, f, g) ==> t.frames[f].amount.cache == 0)
  {
    hide Total, Displays, Balanced;
    if forall f, g :: Twins(t, resolve, f, g) ==> t.frames[f].amount.cache == 0 {
      forall r | Displays(t, resolve, name, r)
        ensures r.amount.cache == r.under.cache + r.unknown.cache + Total(r.frames, SortedWeight(true))
      {
        forall f | f in Lost(t, resolve, name, r) ensures t.frames[f].amount.cache == 0 {
          var g := LostTo(t, resolve, name, r, f);
        }
        CacheOfDisplay(t, resolve, name, r);
      }
    } else {
      var f, g :| Twins(t, resolve, f, g) && t.frames[f].amount.cache != 0;
      var r := LosesCache(t, resolve, name, f, g);
    }
  }

  lemma LosesCache(t: Tree, resolve: Resolver, name: Option<Name>, f: Frame, g: Frame) returns (r: Sorted)
    requires Balanced(t) && Twins(t, resolve, f, g) && t.frames[f].amount.cache != 0
    ensures Displays(t, resolve, name, r)
    ensures r.amount.cache != r.under.cache + r.unknown.cache + Total(r.frames, SortedWeight(true))
  {
    hide Total, Displays;
    OneDisplayIs(t, resolve, name);
    OneDisplayIs(t.frames[g], resolve, resolve(g));
    var k, c := KeyOf(g, t.frames[g], resolve), OneDisplay(t.frames[g], resolve, resolve(g));
    r := OneDisplay(t, resolve, name);
    Reshown(t, resolve, name, r, g, c);
    r := r.(frames := r.frames[k := c]);
    CacheOfDisplay(t, resolve, name, r);
    var m := Shown(t, resolve, name, r);
    if f in m.Values {
      var j :| j in m && m[j] == f;
      assert j == k && t.frames[f].amount == t.frames[g].amount;
      var x := OneLost(t, resolve, name, r, f, g);
      assert t.frames[x].amount.cache != 0;
    } else {
      assert f in Lost(t, resolve, name, r);
    }
  }

  // ---------------------------------------------------------------- at every node

  ghost predicate AddsUp(r: Sorted) {
    && r.amount.value == r.under.value + r.unknown.value + Total(r.frames, SortedWeight(false))
    && r.amount.cache == r.under.cache + r.unknown.cache + Total(r.frames, SortedWeight(true))
  }

  ghost predicate AddsUpThroughout(r: Sorted) {
    AddsUp(r) && forall k :: k in r.frames ==> AddsUpThroughout(r.frames[k])
  }

  /** No twins but empty ones, here or below. */
  ghost predicate Untwinned(t: Tree, resolve: Resolver) {
    && (forall f, g :: Twins(t, resolve, f, g) ==> t.frames[f].amount == ZERO)
    && (forall f :: f in t.frames && resolve(f).Some? ==> Untwinned(t.frames[f], resolve))
  }

  /** Memory and page cache add up at every node of every display of a tree if
      and only if it has no twins but empty ones. */
  lemma {:induction false} AddsUpIff(t: Tree, resolve: Resolver, name: Option<Name>)
    requires Balanced(t)
    ensures (forall r :: Displays(t, resolve, name, r) ==> AddsUpThroughout(r)) <==> Untwinned(t, resolve)
    decreases t
  {
    hide Total, Displays;
    if Untwinned(t, resolve) {
      forall r | Displays(t, resolve, name, r) ensures AddsUpThroughout(r) {
        AddsUpHere(t, resolve, name, r);
        forall k | k in r.frames ensures AddsUpThroughout(r.frames[k]) {
          var f := ChildShown(t, resolve, name, r, k);
          AddsUpIff(t.frames[f], resolve, Some(k.name));
        }
      }
    } else if f, g :| Twins(t, resolve, f, g) && t.frames[f].amount != ZERO {
      var r := LosesSome(t, resolve, name, f, g);
    } else {
      var f :| f in t.frames && resolve(f).Some? && !Untwinned(t.frames[f], resolve);
      AddsUpIff(t.frames[f], resolve, resolve(f));
      var c :| Displays(t.frames[f], resolve, resolve(f), c) && !AddsUpThroughout(c);
      OneDisplayIs(t, resolve, name);
      var r := OneDisplay(t, resolve, name);
      Reshown(t, resolve, name, r, f, c);
      var k := KeyOf(f, t.frames[f], resolve);
      assert !AddsUpThroughout(r.(frames := r.frames[k := c]).frames[k]);
    }
  }

  lemma AddsUpHere(t: Tree, resolve: Resolver, name: Option<Name>, r: Sorted)
    requires Balanced(t) && Displays(t, resolve, name, r)
    requires forall f, g :: Twins(t, resolve, f, g) ==> t.frames[f].amount == ZERO
    ensures AddsUp(r)
  {
    hide Total, Displays, Balanced;
    assert NoTwins(t, resolve);
    ValuesAddUp(t, resolve, name, r);
    CachesAddUp(t, resolve, name);
  }

  lemma ChildShown(t: Tree, resolve: Resolver, name: Option<Name>, r: Sorted, k: SortKey) returns (f: Frame)
    requires Displays(t, resolve, name, r) && k in r.frames
    ensures f in t.frames && resolve(f) == Some(k.name) && Displays(t.frames[f], resolve, Some(k.name), r.frames[k])
  {
    assert ChildrenOf(t, resolve, r.frames);
    f :| f in t.frames && resolve(f) == Some(k.name) && t.frames[f].amount.value == k.value &&
         Displays(t.frames[f], resolve, Some(k.name), r.frames[k]);
  }

  lemma LosesSome(t: Tree, resolve: Resolver, name: Option<Name>, f: Frame, g: Frame) returns (r: Sorted)
    requires Balanced(t) && Twins(t, resolve, f, g) && t.frames[f].amount != ZERO
    ensures Displays(t, resolve, name, r) && !AddsUp(r)
  {
    hide Total, Displays, Balanced;
    if t.frames[f].amount.cache != 0 {
      r := LosesCache(t, resolve, name, f, g);
    } else {
      OneDisplayIs(t, resolve, name);
      r := OneDisplay(t, resolve, name);
      assert !NoTwins(t, resolve);
      ValuesAddUp(t, resolve, name, r);
    }
  }

  /** The whole way of a report: built, stripped and displayed, it never
      underflows, and its root shows the sum over all stacks. */
  method Report(es: seq<Entry>, threshold: nat, resolve: Resolver) returns (r: Sorted)
    ensures Displays(Stripped(Built(es), threshold), resolve, None, r)
    ensures r.amount == PrefixSum(es, [])
  {
    hide Built, Stripped, Balanced, PrefixSum;
    var t := Built(es);
    BuiltBalanced(es);
    StrippedBalanced(t, threshold);
    RootSum(es, threshold);
    t := Strip(t, threshold);
    r := SortFrames(t, resolve, None);
  }
}
