/** Reports whose frames are named through a memory map. */
module ResolvedReports {
  import opened Wrappers
  import opened Sums
  import opened FrameReports
  import opened StackResolving
  import opened SortedReports

  function ResolverOf(s: StackResolver): Resolver {
    (f: Frame) => Resolve(s, f)
  }

  /** Siblings that can be named lie at different places, here and below. */
  ghost predicate PlacesDiffer(t: Tree, s: StackResolver) {
    && (forall f, g :: f in t.frames && g in t.frames && f != g && Place(s, f).Some? ==> Place(s, f) != Place(s, g))
    && (forall f :: f in t.frames && Place(s, f).Some? ==> PlacesDiffer(t.frames[f], s))
  }

  lemma {:induction false} DifferUntwinned(t: Tree, s: StackResolver)
    requires PlacesDiffer(t, s)
    ensures Untwinned(t, ResolverOf(s))
    decreases t
  {
    forall f, g | f in t.frames && g in t.frames ensures !Twins(t, ResolverOf(s), f, g) {
      if Resolve(s, f).Some? && Resolve(s, f) == Resolve(s, g) {
        SameNameIff(s, f, g);
      }
    }
    forall f | f in t.frames && ResolverOf(s)(f).Some? ensures Untwinned(t.frames[f], ResolverOf(s)) {
      DifferUntwinned(t.frames[f], s);
    }
  }

  /** Then memory and page cache add up at every node, in every order of
      visiting. */
  lemma DifferAddsUp(t: Tree, s: StackResolver, name: Option<Name>)
    requires Balanced(t) && PlacesDiffer(t, s)
    ensures forall r :: Displays(t, ResolverOf(s), name, r) ==> AddsUpThroughout(r)
  {
    hide Displays, Balanced;
    DifferUntwinned(t, s);
    AddsUpIff(t, ResolverOf(s), name);
  }

  lemma {:induction false} OnceDiffer(t: Tree, s: StackResolver)
    requires RangesApart(s.entries) && MappedOnce(s)
    ensures PlacesDiffer(t, s)
    decreases t
  {
    hide RangesApart, MappedOnce;
    PlacesApartIff(s);
    forall f | f in t.frames && Place(s, f).Some? ensures PlacesDiffer(t.frames[f], s) {
      OnceDiffer(t.frames[f], s);
    }
  }

  /** Every report adds up throughout when everything is mapped once. */
  lemma ReportAddsUp(es: seq<Entry>, threshold: nat, s: StackResolver)
    requires RangesApart(s.entries) && MappedOnce(s)
    ensures forall r :: Displays(Stripped(Built(es), threshold), ResolverOf(s), None, r) ==> AddsUpThroughout(r)
  {
    hide Built, Stripped, Balanced, Displays;
    var t := Built(es);
    BuiltBalanced(es);
    StrippedBalanced(t, threshold);
    OnceDiffer(Stripped(t, threshold), s);
    DifferAddsUp(Stripped(t, threshold), s, None);
  }

  // ---------------------------------------------------------------- what is lost otherwise

  /** Two callers that get one name and weigh the same: one of them is lost, in
      any order of visiting. */
  lemma TwinIsLost(es: seq<Entry>, f: Frame, g: Frame, s: StackResolver, r: Sorted)
    requires Displays(Built(es), ResolverOf(s), None, r)
    requires f != g && Occurs(es, [f]) && Occurs(es, [g]) && Resolve(s, f).Some? && Resolve(s, f) == Resolve(s, g)
    requires PrefixSum(es, [f]).value == PrefixSum(es, [g]).value > 0
    ensures r.amount.value != r.under.value + r.unknown.value + Total(r.frames, SortedWeight(false))
    ensures PrefixSum(es, [f]).cache > 0 && PrefixSum(es, [g]).cache > 0 ==>
              r.amount.cache != r.under.cache + r.unknown.cache + Total(r.frames, SortedWeight(true))
  {
    hide Displays, Total, Built, PrefixSum, Occurs;
    var t := Built(es);
    TopChild(es, f);
    TopChild(es, g);
    assert Twins(t, ResolverOf(s), f, g);
    ValuesAddUp(t, ResolverOf(s), None, r);
    CacheOfDisplay(t, ResolverOf(s), None, r);
    var x := OneLost(t, ResolverOf(s), None, r, f, g);
  }

  lemma TopChild(es: seq<Entry>, f: Frame)
    requires Occurs(es, [f])
    ensures f in Built(es).frames && Built(es).frames[f].amount == PrefixSum(es, [f])
  {
    hide Built, PrefixSum, Occurs;
    BuiltAt(es, [f]);
    AtOne(Built(es), f);
  }

  lemma AtOne(t: Tree, f: Frame)
    ensures At(t, [f]) == if f in t.frames then Some(t.frames[f]) else None
  {
    assert [f][0] == f && [f][1..] == [];
  }

  /** A library without symbols whose first page is mapped executable twice. */
  function TwiceMapped(): StackResolver {
    StackResolver(
      [MapEntry(0x1000, 0x2000, true, 0, Some("/lib/l.so")), MapEntry(0x5000, 0x6000, true, 0, Some("/lib/l.so"))],
      map["/lib/l.so" := n => None], n => n, n => false)
  }

  lemma TwiceMappedName()
    ensures RangesApart(TwiceMapped().entries)
    ensures Resolve(TwiceMapped(), 0x1010).Some? && Resolve(TwiceMapped(), 0x1010) == Resolve(TwiceMapped(), 0x5010)
  {
    var s := TwiceMapped();
    var i := Found(s.entries, 0x1010);
    var j := Found(s.entries, 0x5010);
    assert s.entries[0] == MapEntry(0x1000, 0x2000, true, 0, Some("/lib/l.so"));
    assert s.entries[1] == MapEntry(0x5000, 0x6000, true, 0, Some("/lib/l.so"));
    assert Contains(s.entries[0], 0x1010) && Contains(s.entries[1], 0x5010);
    SameNameIff(s, 0x1010, 0x5010);
  }

  /** There, one page of page cache allocated from the same instruction at each
      address is shown once. */
  lemma TwinExample(r: Sorted)
    requires Displays(Built([Entry([0x1010], Amount(1, 1)), Entry([0x5010], Amount(1, 1))]),
                      ResolverOf(TwiceMapped()), None, r)
    ensures r.amount.value != r.under.value + r.unknown.value + Total(r.frames, SortedWeight(false))
    ensures r.amount.cache != r.under.cache + r.unknown.cache + Total(r.frames, SortedWeight(true))
  {
    hide Displays, Total, Built, PrefixSum, Resolve, TwiceMapped;
    var a, b := Entry([0x1010], Amount(1, 1)), Entry([0x5010], Amount(1, 1));
    TwoEntries(a, b, [0x1010]);
    TwoEntries(a, b, [0x5010]);
    assert !([0x1010] <= b.stack) && !([0x5010] <= a.stack) by {
      assert a.stack[0] != b.stack[0];
    }
    TwiceMappedName();
    TwinIsLost([a, b], 0x1010, 0x5010, TwiceMapped(), r);
  }

  lemma TwoEntries(a: Entry, b: Entry, path: seq<Frame>)
    ensures PrefixSum([a, b], path) == Plus(Contribution(a, path), Contribution(b, path))
    ensures Occurs([a, b], path) <==> path <= a.stack || path <= b.stack
  {
    hide Plus, Contribution;
    assert [a] + [b] == [a, b];
    PrefixSumAppend([a], [b], path);
    OneEntry(a, path);
    OneEntry(b, path);
    assert [a, b][0] == a && [a, b][1] == b;
  }

  lemma OneEntry(a: Entry, path: seq<Frame>)
    ensures PrefixSum([a], path) == Contribution(a, path)
  {
    hide Plus, Contribution;
    assert [a][..0] == [];
    PlusZero(Contribution(a, path));
  }
}
