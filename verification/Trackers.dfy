/** The three trackers on the same trace. */
module Trackers {
  import opened Wrappers
  import opened Sums
  import opened Pages
  import opened PageTraces
  import Allocation
  import AllocationStates
  import Histories
  import Aggregators

  // ---------------------------------------------------------------- histories and allocation state

  /** A free by another process than the last that allocated, or a mark taken
      away: the page is live to one tracker and not to the other. */
  predicate Parts(r: Allocation.Record, e: Event) {
    || (e.Free? && r.pid != Some(e.pid) && e.page in r.live)
    || (e.Mark? && !e.b && e.page in r.live && r.live[e.page].cached)
  }

  lemma PartsStep(r: Allocation.Record, e: Event)
    ensures Allocation.Recorded(r, e).live == Histories.Noticed(r.live, e) <==> !Parts(r, e)
  {
    match e
    case Alloc(_, _, _) =>
    case Free(p, pid) =>
      if p in r.live {
        assert p !in r.live - {p};
      } else {
        assert r.live - {p} == r.live;
      }
    case Mark(p, b) =>
      if p in r.live {
        if r.live[p].cached == b {
          assert r.live[p := r.live[p].(cached := b)] == r.live;
        }
        if !b && r.live[p].cached {
          assert p !in r.live - {p};
        }
      }
  }

  lemma PrefixStep(es: seq<Event>, k: nat)
    requires k < |es|
    ensures Allocation.RecordOf(es[..k + 1]) == Allocation.Recorded(Allocation.RecordOf(es[..k]), es[k])
    ensures Histories.NoticedIn(es[..k + 1]) == Histories.Noticed(Histories.NoticedIn(es[..k]), es[k])
  {
    hide Allocation.Recorded, Histories.Noticed;
    assert es[..k + 1][..k] == es[..k];
  }

  lemma {:induction false} AgreeAt(es: seq<Event>, k: nat)
    requires k <= |es| && forall j :: 0 <= j < k ==> !Parts(Allocation.RecordOf(es[..j]), es[j])
    ensures Allocation.RecordOf(es[..k]).live == Histories.NoticedIn(es[..k])
    decreases k
  {
    if k == 0 {
      assert es[..0] == [];
    } else {
      hide Parts, Allocation.Recorded, Allocation.RecordOf, Histories.Noticed, Histories.NoticedIn;
      AgreeAt(es, k - 1);
      PrefixStep(es, k - 1);
      PartsStep(Allocation.RecordOf(es[..k - 1]), es[k - 1]);
    }
  }

  /** Both trackers hold the same live pages, under the same stacks, all along a
      trace precisely when no step of it parts them. */
  lemma SameLiveIff(es: seq<Event>)
    ensures (forall k :: 0 <= k <= |es| ==> Allocation.RecordOf(es[..k]).live == Histories.NoticedIn(es[..k])) <==>
            (forall k :: 0 <= k < |es| ==> !Parts(Allocation.RecordOf(es[..k]), es[k]))
  {
    hide Parts, Allocation.Recorded, Allocation.RecordOf, Histories.Noticed, Histories.NoticedIn;
    if forall k :: 0 <= k < |es| ==> !Parts(Allocation.RecordOf(es[..k]), es[k]) {
      forall k | 0 <= k <= |es| ensures Allocation.RecordOf(es[..k]).live == Histories.NoticedIn(es[..k]) {
        AgreeAt(es, k);
      }
    }
    if forall k :: 0 <= k <= |es| ==> Allocation.RecordOf(es[..k]).live == Histories.NoticedIn(es[..k]) {
      forall k | 0 <= k < |es| ensures !Parts(Allocation.RecordOf(es[..k]), es[k]) {
        PrefixStep(es, k);
        PartsStep(Allocation.RecordOf(es[..k]), es[k]);
      }
    }
  }

  /** One process, and no mark is taken away. */
  predicate OneProcess(es: seq<Event>, pid: nat) {
    forall k :: 0 <= k < |es| ==> if es[k].Mark? then es[k].b else es[k].pid == pid
  }

  /** Such a trace never parts them. */
  lemma SameLive(es: seq<Event>, pid: nat)
    requires OneProcess(es, pid)
    ensures Allocation.RecordOf(es).live == Histories.NoticedIn(es)
  {
    forall k | 0 <= k < |es| ensures !Parts(Allocation.RecordOf(es[..k]), es[k]) {
      OnlyPid(es[..k], pid);
    }
    SameLiveIff(es);
    assert es[..|es|] == es;
  }

  lemma {:induction false} OnlyPid(es: seq<Event>, pid: nat)
    requires OneProcess(es, pid)
    ensures var r := Allocation.RecordOf(es);
            r.pid == Some(pid) || (r.pid == None && r.live == map[])
    decreases |es|
  {
    if es != [] {
      OnlyPid(es[..|es| - 1], pid);
    }
  }

  /** Trackers that were never parted report the same memory, four KiB for every
      frame of a live page, and where no mark is moved the same page cache. */
  lemma SameReport(es: seq<Event>)
    requires forall k :: 0 <= k < |es| ==> !Parts(Allocation.RecordOf(es[..k]), es[k])
    ensures var live, group := Histories.NoticedIn(es), Allocation.After(es).groups.group;
            && 4 * Total(group, AllocationStates.Nodes()) == 4 * Total(live, HeldFrames(false))
            && 4 * Total(Histories.Past(es).group, Histories.PerStack(false)) == 4 * Total(live, HeldFrames(false))
            && 4 * Total(Histories.Past(es).group, Histories.PerStack(true)) == 4 * Total(live, HeldFrames(true))
            && ((forall k :: 0 <= k < |es| ==> !AllocationStates.MovesMark(Histories.NoticedIn(es[..k]), es[k])) ==>
                  4 * Total(group, AllocationStates.Caches()) == 4 * Total(live, HeldFrames(true)))
  {
    hide Total, Number, Parts, AllocationStates.MovesMark;
    hide Allocation.After, Allocation.RecordOf, Histories.Past, Histories.NoticedIn, Histories.Remembers;
    SameLiveIff(es);
    assert es[..|es|] == es;
    AllocationStates.ReportedIsLive(es);
    Histories.RemembersLive(es);
    var live := Histories.NoticedIn(es);
    Histories.ReportIsLive(Histories.Past(es), live, false);
    Histories.ReportIsLive(Histories.Past(es), live, true);
    if forall k :: 0 <= k < |es| ==> !AllocationStates.MovesMark(Histories.NoticedIn(es[..k]), es[k]) {
      AllocationStates.CacheReported(es);
    }
  }

  /** Taking a mark away is where they part: one frees the page, the other keeps it. */
  lemma UnmarkingDiffers(p: Page, s: Stack)
    ensures var es := [Alloc(p, s, 0), Mark(p, true), Mark(p, false)];
            p !in Allocation.RecordOf(es).live && p in Histories.NoticedIn(es)
  {
    var e1, e2, e3 := Alloc(p, s, 0), Mark(p, true), Mark(p, false);
    assert [e1, e2, e3][..2] == [e1, e2] && [e1, e2][..1] == [e1] && [e1][..0] == [];
    assert Allocation.RecordOf([e1]).live == map[p := Held(s, false)] == Histories.NoticedIn([e1]);
    assert Allocation.RecordOf([e1, e2]).live == map[p := Held(s, true)] == Histories.NoticedIn([e1, e2]);
  }

  // ---------------------------------------------------------------- the aggregator

  /** No live page is allocated again, and a frame keeps its order while live. */
  predicate OrderlyStep(live: map<Page, Held>, e: Event) {
    forall q :: q in live && Pfn(q) == Pfn(e.page) ==> !e.Alloc? && q == e.page
  }

  ghost predicate Orderly(es: seq<Event>) {
    forall k :: 0 <= k < |es| ==> OrderlyStep(Histories.NoticedIn(es[..k]), es[k])
  }

  function PageAt(a: Aggregators.Table, f: nat): Page
    requires f in a.pages
  {
    New(f, a.pages[f].order)
  }

  ghost predicate Known(live: map<Page, Held>, a: Aggregators.Table, f: nat)
    requires f in a.pages
  {
    var p := PageAt(a, f);
    && Pfn(p) == f && Order(p) == a.pages[f].order && p in live
    && Aggregators.Counted(a, f) && a.groups[a.pages[f].index].path == live[p].stack
    && a.pages[f].cached == live[p].cached
  }

  /** The aggregator counts exactly the live pages. */
  ghost predicate Counts(live: map<Page, Held>, a: Aggregators.Table) {
    && (forall f :: f in a.pages ==> Known(live, a, f))
    && (forall p :: p in live ==> Pfn(p) in a.pages && PageAt(a, Pfn(p)) == p)
  }

  /** A step that leaves the page and the path of its stack. */
  ghost predicate Leaves(a: Aggregators.Table, a': Aggregators.Table, f: nat) {
    && (forall g :: g in a.pages && g != f ==> g in a'.pages && a'.pages[g] == a.pages[g])
    && (forall g :: g in a'.pages && g != f ==> g in a.pages)
    && (forall i :: i in a.groups ==> i in a'.groups && a'.groups[i].path == a.groups[i].path)
  }

  /** The other pages stay known. */
  lemma OthersKnown(live: map<Page, Held>, a: Aggregators.Table, live': map<Page, Held>, a': Aggregators.Table, p: Page)
    requires Counts(live, a) && Leaves(a, a', Pfn(p))
    requires forall q :: q in live && Pfn(q) != Pfn(p) ==> q in live' && live'[q] == live[q]
    requires forall q :: q in live' && q != p ==> q in live && Pfn(q) != Pfn(p)
    requires Pfn(p) in a'.pages <==> p in live'
    requires Pfn(p) in a'.pages ==> Known(live', a', Pfn(p)) && PageAt(a', Pfn(p)) == p
    ensures Counts(live', a')
  {
    hide Pfn, Order, New;
    forall g | g in a'.pages ensures Known(live', a', g) {
      if g != Pfn(p) {
        assert Known(live, a, g);
      }
    }
    forall q | q in live' ensures Pfn(q) in a'.pages && PageAt(a', Pfn(q)) == q {
      if q != p {
        assert Pfn(q) in a.pages && PageAt(a, Pfn(q)) == q;
      }
    }
  }

  /** A page whose frame is counted is the live page with that frame. */
  lemma LiveWithFrame(live: map<Page, Held>, a: Aggregators.Table, p: Page)
    requires Counts(live, a) && (forall q :: q in live && Pfn(q) == Pfn(p) ==> q == p)
    ensures Pfn(p) in a.pages <==> p in live
    ensures p in live ==> Known(live, a, Pfn(p)) && PageAt(a, Pfn(p)) == p
  {
    hide Pfn, Order, New;
    if Pfn(p) in a.pages {
      assert Known(live, a, Pfn(p));
    }
  }

  lemma AllocShape(a: Aggregators.Table, p: Page, s: Stack, pid: nat)
    requires Aggregators.Linked(a) && Pfn(p) !in a.pages
    ensures var a', i := Aggregators.Step(a, Alloc(p, s, pid)), Aggregators.Target(a, s);
            && Leaves(a, a', Pfn(p)) && i in a'.groups && a'.groups[i].path == s
            && Pfn(p) in a'.pages && a'.pages[Pfn(p)] == Aggregators.PageInfo(i, Order(p), true, false)
  {
    hide Pfn, Order, TwoTo, Aggregators.Linked;
    Aggregators.IndexedLinked(a, s);
    PathBack(Aggregators.Indexed(a, s), s);
  }

  lemma AllocCounts(live: map<Page, Held>, a: Aggregators.Table, p: Page, s: Stack, pid: nat)
    requires Aggregators.Linked(a) && Counts(live, a) && OrderlyStep(live, Alloc(p, s, pid))
    ensures Pfn(p) !in a.pages && Counts(live[p := Held(s, false)], Aggregators.Step(a, Alloc(p, s, pid))) && p !in live
  {
    hide Pfn, Order, New, Aggregators.Step, Counts, Aggregators.Linked;
    LiveWithFrame(live, a, p);
    AllocShape(a, p, s, pid);
    Packing(0, 0, p);
    OthersKnown(live, a, live[p := Held(s, false)], Aggregators.Step(a, Alloc(p, s, pid)), p);
  }

  /** The index of a stack leads back to it. */
  lemma PathBack(a: Aggregators.Table, s: Stack)
    requires Aggregators.Linked(a) && s in a.paths
    ensures a.paths[s] in a.groups ==> a.groups[a.paths[s]].path == s
  {
  }

  lemma OtherShape(a: Aggregators.Table, e: Event)
    requires Aggregators.Linked(a) && !e.Alloc?
    ensures var a', f := Aggregators.Step(a, e), Pfn(e.page);
            && Leaves(a, a', f)
            && (f in a'.pages <==> f in a.pages && e.Mark?)
            && (f in a'.pages ==> a'.pages[f] == a.pages[f].(cached := e.b))
  {
    hide Pfn, TwoTo, Aggregators.Linked;
    Aggregators.IsCounted(a, Pfn(e.page));
  }

  lemma OtherCounts(live: map<Page, Held>, a: Aggregators.Table, e: Event)
    requires Aggregators.Linked(a) && Counts(live, a) && OrderlyStep(live, e) && !e.Alloc?
    ensures Counts(Histories.Noticed(live, e), Aggregators.Step(a, e))
  {
    hide Pfn, Order, New, Aggregators.Step, Counts, Aggregators.Linked;
    LiveWithFrame(live, a, e.page);
    OtherShape(a, e);
    OthersKnown(live, a, Histories.Noticed(live, e), Aggregators.Step(a, e), e.page);
  }

  /** On an orderly trace the aggregator counts exactly the live pages, and none
      of its counters is ever disturbed. */
  lemma {:induction false} CountsLive(es: seq<Event>)
    requires Orderly(es)
    ensures Counts(Histories.NoticedIn(es), Aggregators.Aggregated(es))
    ensures Aggregators.Never(es, Aggregators.Disturbing(false)) && Aggregators.Never(es, Aggregators.Disturbing(true))
    decreases |es|
  {
    hide Aggregators.Step, Counts, OrderlyStep, Aggregators.Linked, Pfn;
    if es == [] {
      NothingCounted();
    } else {
      var n := |es| - 1;
      assert forall k :: 0 <= k < n ==> es[..n][..k] == es[..k] && es[..n][k] == es[k];
      CountsLive(es[..n]);
      var live, a := Histories.NoticedIn(es[..n]), Aggregators.Aggregated(es[..n]);
      assert OrderlyStep(live, es[n]);
      match es[n] {
        case Alloc(p, s, pid) => AllocCounts(live, a, p, s, pid);
        case Free(_, _) => OtherCounts(live, a, es[n]);
        case Mark(_, _) => OtherCounts(live, a, es[n]);
      }
      Aggregators.NeverPush(es, Aggregators.Disturbing(false));
      Aggregators.NeverPush(es, Aggregators.Disturbing(true));
    }
  }

  lemma NothingCounted()
    ensures Counts(map[], Aggregators.EMPTY_TABLE)
  {
  }

  lemma DueIsShare(live: map<Page, Held>, a: Aggregators.Table, i: nat, cache: bool)
    requires Aggregators.Linked(a) && Counts(live, a) && i in a.groups
    ensures Aggregators.Due(a, i, cache) == Share(live, HeldFrames(cache), StackOf(), a.groups[i].path)
  {
    hide Total, Pfn, Order, New, TwoTo, Aggregators.Linked;
    var to: map<nat, Page> := map f: nat | f in a.pages :: PageAt(a, f);
    assert to.Values == live.Keys by {
      forall p | p in live ensures p in to.Values {
        assert to[Pfn(p)] == p;
      }
      forall f | f in to ensures to[f] in live {
        assert Known(live, a, f);
      }
    }
    var w: (nat, Aggregators.PageInfo) -> nat :=
      InGroup<nat, Aggregators.PageInfo, nat>(Aggregators.Weighed(cache), Aggregators.IndexOf(), i);
    var x := InGroup(HeldFrames(cache), StackOf(), a.groups[i].path);
    forall f | f in a.pages ensures to[f] in live && Pfn(to[f]) == f && w(f, a.pages[f]) == x(to[f], live[to[f]]) {
      assert Known(live, a, f);
      PathOnce(a, a.pages[f].index, i);
    }
    Relabelled(a.pages, w, live, x, to);
  }

  lemma PathOnce(a: Aggregators.Table, i: nat, j: nat)
    requires Aggregators.Linked(a) && i in a.groups && j in a.groups
    ensures a.groups[i].path == a.groups[j].path <==> i == j
  {
  }

  /** On an orderly trace every counter of the aggregator is the sum over the
      live pages of its stack, for all memory and for the page cache. */
  lemma AggregatorAgrees(es: seq<Event>, i: nat)
    requires Orderly(es) && i in Aggregators.Aggregated(es).groups
    ensures var g, live := Aggregators.Aggregated(es).groups[i], Histories.NoticedIn(es);
            && g.value == Share(live, HeldFrames(false), StackOf(), g.path)
            && g.cache == Share(live, HeldFrames(true), StackOf(), g.path)
  {
    hide Aggregators.Aggregated, Histories.NoticedIn, Orderly, Share, Aggregators.Due, Aggregators.Linked, Counts,
      Aggregators.Never;
    CountsLive(es);
    var a, live := Aggregators.Aggregated(es), Histories.NoticedIn(es);
    Aggregators.Traced(es, false);
    Aggregators.Traced(es, true);
    DueIsShare(live, a, i, false);
    DueIsShare(live, a, i, true);
    assert Aggregators.Excess(a, i, false) == 0 == Aggregators.Excess(a, i, true);
  }

  // ---------------------------------------------------------------- the unit

  lemma OneTotal<K(!new), V(!new)>(k: K, v: V, w: (K, V) -> nat)
    ensures Total(map[k := v], w) == w(k, v)
  {
    hide Total;
    Pick(map[k := v], w, k);
    assert map[k := v] - {k} == map[];
    Zero(map[k := v] - {k}, w);
  }

  /** What all three trackers make of one marked page of each order: its frames,
      four KiB each, as memory and as page cache. */
  lemma OnePage(pfn: nat, order: nat, s: Stack, pid: nat)
    ensures var p := New(pfn, order);
            var es := [Alloc(p, s, pid), Mark(p, true)];
            var n := FRAMES[order % 16];
            var group, past, a := Allocation.After(es).groups.group, Histories.Past(es).group, Aggregators.Aggregated(es);
            && 4 * Total(group, AllocationStates.Nodes()) == 4 * n == 4 * Total(group, AllocationStates.Caches())
            && 4 * Total(past, Histories.PerStack(false)) == 4 * n == 4 * Total(past, Histories.PerStack(true))
            && (forall i :: i in a.groups && a.groups[i].path == s ==> a.groups[i].value == n == a.groups[i].cache)
            && exists i :: i in a.groups && a.groups[i].path == s
  {
    hide Total, Pfn, Order, New, TwoTo, Allocation.After, Histories.Past, Aggregators.Aggregated, AllocationStates.MovesMark;
    var p := New(pfn, order);
    var es := [Alloc(p, s, pid), Mark(p, true)];
    var live := map[p := Held(s, true)];
    FramesOf(pfn, order);
    OnePageLive(p, s, pid);
    SameReport(es);
    OneTotal(p, Held(s, true), HeldFrames(false));
    OneTotal(p, Held(s, true), HeldFrames(true));
    OneTotal(p, Held(s, true), InGroup(HeldFrames(false), StackOf(), s));
    OneTotal(p, Held(s, true), InGroup(HeldFrames(true), StackOf(), s));
    CountsLive(es);
    var a := Aggregators.Aggregated(es);
    forall i | i in a.groups && a.groups[i].path == s
      ensures a.groups[i].value == FRAMES[order % 16] == a.groups[i].cache
    {
      AggregatorAgrees(es, i);
    }
    assert Known(live, a, Pfn(p)) && PageAt(a, Pfn(p)) == p;
    assert a.groups[a.pages[Pfn(p)].index].path == s;
  }

  lemma OnePageLive(p: Page, s: Stack, pid: nat)
    ensures var es := [Alloc(p, s, pid), Mark(p, true)];
            && Histories.NoticedIn(es) == map[p := Held(s, true)] && Orderly(es)
            && (forall k :: 0 <= k < |es| ==> !Parts(Allocation.RecordOf(es[..k]), es[k]))
            && (forall k :: 0 <= k < |es| ==> !AllocationStates.MovesMark(Histories.NoticedIn(es[..k]), es[k]))
  {
    hide Pfn;
    var es := [Alloc(p, s, pid), Mark(p, true)];
    assert es[..0] == [] && es[..1] == [es[0]] && [es[0]][..0] == [];
    assert Histories.NoticedIn(es[..0]) == map[] && Histories.NoticedIn(es[..1]) == map[p := Held(s, false)];
  }
}
