/** The allocation tracker as an object, its report, and how far its page
    cache counters can be trusted. */
module AllocationStates {
  import opened Wrappers
  import opened Sums
  import opened Pages
  import opened PageTraces
  import opened Allocation

  // ---------------------------------------------------------------- the page cache counters

  /** A marked page is allocated again by another stack: its mark moves along,
      but neither counter does. */
  predicate Disturbs(g: Groups, e: Event) {
    && e.Alloc? && e.page in g.lastStack && g.lastStack[e.page].forCache
    && g.lastStack[e.page].hash in g.group && g.group[g.lastStack[e.page].hash].stack != e.stack
  }

  lemma NumberPositive(p: Page)
    ensures Number(p) > 0
  {
    PowerPositive(Order(p));
  }

  lemma DetachedCache(g: Groups, p: Page)
    requires CanDetach(g, p) && CacheExact(g)
    ensures CacheExact(Detached(g, p)) <==> !g.lastStack[p].forCache
    ensures var h := g.lastStack[p].hash;
            g.lastStack[p].forCache ==> Detached(g, p).group[h].cache != AttributedCache(Detached(g, p), h)
  {
    hide Share, Number;
    NumberPositive(p);
    forall h
      ensures AttributedCache(g, h) ==
              AttributedCache(Detached(g, p), h) + if g.lastStack[p].hash == h then CachedNumber(p, g.lastStack[p]) else 0
    {
      ShareRemoved(g.lastStack, CachedFrames(), p, h);
    }
  }

  lemma AttachedCache(g: Groups, p: Page, stack: Stack, c: bool, h: nat)
    requires Linked(g) && stack in g.detector && p !in g.lastStack
    ensures var g' := Attached(g, p, stack, c);
            && (h in g.group && (h != g.detector[stack] || !c) ==>
                  h in g'.group && g'.group[h].cache == g.group[h].cache && AttributedCache(g', h) == AttributedCache(g, h))
            && (h !in g.group && h in g'.group && !c ==> g'.group[h].cache == 0 == AttributedCache(g', h))
  {
    hide Share, Number, Order;
    var g' := Attached(g, p, stack, c);
    ShareAdded(g.lastStack, CachedFrames(), p, g'.lastStack[p], h);
    if h !in g.group {
      NothingAttributed(g, CachedFrames(), h);
    }
  }

  lemma AttachedUnmarked(g: Groups, p: Page, stack: Stack)
    requires Linked(g) && stack in g.detector && p !in g.lastStack && CacheExact(g)
    ensures CacheExact(Attached(g, p, stack, false))
  {
    hide AttributedCache, Attached, Linked;
    var g' := Attached(g, p, stack, false);
    forall h | h in g'.group ensures g'.group[h].cache == AttributedCache(g', h) {
      AttachedCache(g, p, stack, false, h);
    }
  }

  /** Marking and unmarking moves counter and share together. */
  lemma CacheMoves(g: Groups, p: Page, b: bool)
    requires p in g.lastStack && g.lastStack[p].hash in g.group && g.lastStack[p].forCache != b && CacheExact(g)
    ensures CacheExact(WithCache(g, p, b)) && WithCache(g, p, b).lastStack[p].forCache == b
  {
    hide Share, Number, Order;
    var g', h0, s := WithCache(g, p, b), g.lastStack[p].hash, g.lastStack[p];
    forall h
      ensures AttributedCache(g', h) + (if h == h0 then CachedNumber(p, s) else 0) ==
              AttributedCache(g, h) + (if h == h0 then CachedNumber(p, s.(forCache := b)) else 0)
    {
      ShareReplaced(g.lastStack, p, s.(forCache := b), h);
    }
  }

  lemma ShareReplaced(m: map<Page, PageState>, p: Page, s: PageState, h: nat)
    requires p in m
    ensures Share(m[p := s], CachedFrames(), HashIn(), h) + (if m[p].hash == h then CachedNumber(p, m[p]) else 0) ==
            Share(m, CachedFrames(), HashIn(), h) + (if s.hash == h then CachedNumber(p, s) else 0)
  {
    Replaced(m, InGroup(CachedFrames(), HashIn(), h), p, s);
  }

  lemma InsertedCache(g: Groups, p: Page, stack: Stack, pid: nat)
    requires Inv(g) && CacheExact(g)
    ensures CacheExact(Inserted(g, p, stack)) <==> !Disturbs(g, Alloc(p, stack, pid))
  {
    hide Inv, CacheExact, Attached, Detached, Noted, AttributedCache, Number, Order;
    var n := Noted(g, stack);
    NotedKeeps(g, stack);
    NotedSame(g, stack);
    SafeParts(n);
    if p in n.lastStack {
      Detachable(n, p);
      SameStack(n, p, stack);
      var u := n.lastStack[p];
      if u.hash != n.detector[stack] {
        var d := Detached(n, p);
        DetachedKeeps(n, p);
        DetachedCache(n, p);
        DetachedSame(n, p);
        SafeParts(d);
        if u.forCache {
          DetachedHas(n, p);
          AttachedCache(d, p, stack, true, u.hash);
          NotExact(Attached(d, p, stack, true), u.hash);
        } else {
          AttachedUnmarked(d, p, stack);
        }
      }
    } else {
      AttachedUnmarked(n, p, stack);
    }
  }

  lemma SafeParts(g: Groups)
    requires Inv(g)
    ensures Linked(g)
  {
  }

  lemma NotExact(g: Groups, h: nat)
    requires h in g.group && g.group[h].cache != AttributedCache(g, h)
    ensures !CacheExact(g)
  {
  }

  lemma DetachedHas(g: Groups, p: Page)
    requires CanDetach(g, p)
    ensures g.lastStack[p].hash in Detached(g, p).group
  {
  }

  lemma SameStack(g: Groups, p: Page, stack: Stack)
    requires Inv(g) && p in g.lastStack && stack in g.detector
    ensures g.lastStack[p].hash in g.group
    ensures g.lastStack[p].hash == g.detector[stack] <==> g.group[g.lastStack[p].hash].stack == stack
  {
    hide Exact;
  }

  /** A step keeps exact page cache counters exact precisely unless it
      allocates a marked page again on another stack. */
  lemma CacheStep(t: Tracker, e: Event)
    requires Inv(t.groups) && CacheExact(t.groups)
    ensures CacheExact(Step(t, e).groups) <==> !Disturbs(t.groups, e)
  {
    hide Inv, CacheExact, Detached, Inserted, WithCache, Number, Order;
    match e
    case Alloc(p, stack, pid) =>
      InsertedCache(t.groups, p, stack, pid);
    case Free(p, _) =>
      if p in t.groups.lastStack {
        UnmarkedAway(t.groups, p);
      }
    case Mark(p, b) =>
      if p in t.groups.lastStack && t.groups.lastStack[p].forCache != b {
        Detachable(t.groups, p);
        CacheMoves(t.groups, p, b);
        if !b {
          UnmarkedAway(t.groups, p);
        }
      }
  }

  lemma UnmarkedAway(g: Groups, p: Page)
    requires Inv(g) && CacheExact(g) && p in g.lastStack
    ensures CacheExact(RemovedFrom(g, p))
  {
    hide Inv, CacheExact, Detached, WithCache, Number, Order;
    Detachable(g, p);
    if g.lastStack[p].forCache {
      WithCacheKeeps(g, p, false);
      CacheMoves(g, p, false);
      WithCacheSame(g, p, false);
      DetachedCache(WithCache(g, p, false), p);
    } else {
      DetachedCache(g, p);
    }
  }

  lemma CacheStepAt(es: seq<Event>, k: nat)
    requires k < |es| && CacheExact(After(es[..k]).groups)
    ensures CacheExact(After(es[..k + 1]).groups) <==> !Disturbs(After(es[..k]).groups, es[k])
  {
    hide CacheExact, After, Disturbs, Step;
    assert es[..k + 1] == es[..k] + [es[k]];
    Next(es[..k], es[k]);
    CacheStep(After(es[..k]), es[k]);
  }

  lemma {:induction false} CacheExactAt(es: seq<Event>, k: nat)
    requires k <= |es| && forall j :: 0 <= j < k ==> !Disturbs(After(es[..j]).groups, es[j])
    ensures CacheExact(After(es[..k]).groups)
    decreases k
  {
    hide CacheExact, After, Disturbs;
    if k == 0 {
      StartCache();
      assert es[..0] == [];
    } else {
      CacheExactAt(es, k - 1);
      CacheStepAt(es, k - 1);
    }
  }

  /** The counters are exact all along a trace precisely when no step of it
      disturbs them. */
  lemma CacheTrace(es: seq<Event>)
    ensures (forall k :: 0 <= k <= |es| ==> CacheExact(After(es[..k]).groups)) <==>
            (forall k :: 0 <= k < |es| ==> !Disturbs(After(es[..k]).groups, es[k]))
  {
    hide CacheExact, After, Disturbs;
    if forall k :: 0 <= k < |es| ==> !Disturbs(After(es[..k]).groups, es[k]) {
      forall k | 0 <= k <= |es| ensures CacheExact(After(es[..k]).groups) {
        CacheExactAt(es, k);
      }
    }
    if forall k :: 0 <= k <= |es| ==> CacheExact(After(es[..k]).groups) {
      forall k | 0 <= k < |es| ensures !Disturbs(After(es[..k]).groups, es[k]) {
        CacheStepAt(es, k);
      }
    }
  }

  /** In terms of the live pages: a marked page is allocated again by another
      stack. */
  predicate MovesMark(live: map<Page, Held>, e: Event) {
    e.Alloc? && e.page in live && live[e.page].cached && live[e.page].stack != e.stack
  }

  lemma DisturbsIs(es: seq<Event>, e: Event)
    ensures Disturbs(After(es).groups, e) <==> MovesMark(RecordOf(es).live, e)
  {
    hide After, RecordOf, Inv;
    HoldsLive(es);
    KeysShown(After(es).groups, RecordOf(es).live);
    if e.page in RecordOf(es).live {
      ShownAs(After(es).groups, RecordOf(es).live, e.page);
    }
  }

  /** Freeing a page takes its frames off its stack, and off the page cache of the
      stack as far as there are any. */
  lemma FreedCounts(g: Groups, p: Page)
    requires Inv(g) && p in g.lastStack
    ensures var h, g' := g.lastStack[p].hash, RemovedFrom(g, p);
            && g'.lastStack == g.lastStack - {p} && g'.group.Keys == g.group.Keys && h in g.group
            && g'.group[h].stack == g.group[h].stack && g'.group[h].node == g.group[h].node - Number(p)
            && (g.lastStack[p].forCache ==> g'.group[h].cache + Number(p) == g.group[h].cache ||
                                            (g.group[h].cache < Number(p) && g'.group[h].cache == 0))
            && (!g.lastStack[p].forCache ==> g'.group[h].cache == g.group[h].cache)
            && forall k :: k in g.group && k != h ==> g'.group[k] == g.group[k]
  {
    hide Inv, Number, Order;
    WithCacheKeeps(g, p, false);
    Detachable(g, p);
    Detachable(if g.lastStack[p].forCache then WithCache(g, p, false) else g, p);
  }

  /** The shortest trace after which a page cache counter is wrong. */
  lemma CacheGoesWrong(p: Page, a: Stack, b: Stack)
    requires a != b
    ensures !CacheExact(After([Alloc(p, a, 0), Mark(p, true), Alloc(p, b, 0)]).groups)
  {
    hide CacheExact, Inv, Step, After, RecordOf, Number, Order;
    var e1, e2, e3 := Alloc(p, a, 0), Mark(p, true), Alloc(p, b, 0);
    StartCache();
    Next([], e1);
    assert [] + [e1] == [e1];
    Next([e1], e2);
    assert [e1] + [e2] == [e1, e2];
    Next([e1, e2], e3);
    assert [e1, e2] + [e3] == [e1, e2, e3];
    CacheStep(After([]), e1);
    CacheStep(After([e1]), e2);
    CacheStep(After([e1, e2]), e3);
    HoldsLive([e1, e2]);
    assert RecordOf([e1, e2]).live == map[p := Held(a, true)];
    ShownAs(After([e1, e2]).groups, map[p := Held(a, true)], p);
  }

  /** And it stays wrong: freed, the page is counted under neither stack, the
      second one's page cache stops at zero, and the first one's is left over. */
  lemma CacheStaysWrong(p: Page, a: Stack, b: Stack)
    requires a != b
    ensures var es := [Alloc(p, a, 0), Mark(p, true), Alloc(p, b, 0), Free(p, 0)];
            var g := After(es).groups;
            && RecordOf(es).live == map[] && g.lastStack == map[]
            && (forall h :: h in g.group ==> g.group[h].node == 0)
            && (forall h :: h in g.group ==> g.group[h].cache == if g.group[h].stack == a then Number(p) else 0)
            && exists h :: h in g.group && g.group[h].stack == a
  {
    hide Number, Order, After, RecordOf, Inv;
    var e1, e2, e3, e4 := Alloc(p, a, 0), Mark(p, true), Alloc(p, b, 0), Free(p, 0);
    AfterThree(p, a, b);
    Next([e1, e2, e3], e4);
    assert [e1, e2, e3] + [e4] == [e1, e2, e3, e4];
    FreedAtZero(After([e1, e2, e3]).groups, p, a, b);
    assert After([e1, e2, e3, e4]).groups.group[1].stack == a;
    assert RecordOf([e1, e2, e3, e4]).live == map[p := Held(b, true)] - {p} == map[];
  }

  /** Two groups, a page under the second, its mark counted under the first. */
  ghost predicate Moved(g: Groups, p: Page, a: Stack, b: Stack) {
    && g.lastStack == map[p := PageState(2, true, Order(p))]
    && g.group == map[1 := Usage(0, Number(p), a), 2 := Usage(Number(p), 0, b)]
  }

  lemma FreedAtZero(g: Groups, p: Page, a: Stack, b: Stack)
    requires Inv(g) && Moved(g, p, a, b)
    ensures var g' := RemovedFrom(g, p);
            g'.lastStack == map[] && g'.group == map[1 := Usage(0, Number(p), a), 2 := Usage(0, 0, b)]
  {
    hide Number, Order, Inv;
    NumberPositive(p);
    var c := WithCache(g, p, false);
    assert c.group == map[1 := Usage(0, Number(p), a), 2 := Usage(Number(p), 0, b)];
    assert c.lastStack - {p} == map[];
  }

  lemma AfterThree(p: Page, a: Stack, b: Stack)
    requires a != b
    ensures var es := [Alloc(p, a, 0), Mark(p, true), Alloc(p, b, 0)];
            && After(es).pid == Some(0) && Moved(After(es).groups, p, a, b)
            && RecordOf(es).pid == Some(0) && RecordOf(es).live == map[p := Held(b, true)]
  {
    hide Number, Order, After, RecordOf, Inv;
    var e1, e2, e3 := Alloc(p, a, 0), Mark(p, true), Alloc(p, b, 0);
    AfterTwo(p, a);
    Next([e1, e2], e3);
    assert [e1, e2] + [e3] == [e1, e2, e3];
    var g := After([e1, e2]).groups;
    var n := Noted(g, b);
    assert n.detector[b] == 2 && n.lastStack == g.lastStack && n.group == g.group;
    NotedKeeps(g, b);
    Detachable(n, p);
    var d := Detached(n, p);
    assert d.group == map[1 := Usage(0, Number(p), a)] && d.lastStack == map[];
  }

  lemma AfterTwo(p: Page, a: Stack)
    ensures var es := [Alloc(p, a, 0), Mark(p, true)];
            && After(es) == Tracker(Some(0), Groups(map[p := PageState(1, true, Order(p))],
                                                    map[1 := Usage(Number(p), Number(p), a)], map[a := 1], 1))
            && RecordOf(es) == Record(Some(0), map[p := Held(a, true)])
  {
    hide Number, Order, After, RecordOf, Inv;
    var e1, e2 := Alloc(p, a, 0), Mark(p, true);
    StartCache();
    Next([], e1);
    assert [] + [e1] == [e1];
    assert After([e1]).groups ==
           Groups(map[p := PageState(1, false, Order(p))], map[1 := Usage(Number(p), 0, a)], map[a := 1], 1);
    Next([e1], e2);
    assert [e1] + [e2] == [e1, e2];
  }

  lemma Next(es: seq<Event>, e: Event)
    ensures After(es + [e]) == Step(After(es), e) && RecordOf(es + [e]) == Recorded(RecordOf(es), e)
  {
    assert (es + [e])[..|es|] == es;
  }

  lemma StartCache()
    ensures After([]).groups == NO_GROUPS && CacheExact(NO_GROUPS) && RecordOf([]) == Record(None, map[])
  {
  }

  // ---------------------------------------------------------------- the report

  function Nodes(): (nat, Usage) -> nat {
    (h, u: Usage) => u.node
  }

  function Caches(): (nat, Usage) -> nat {
    (h, u: Usage) => u.cache
  }

  /** `short_report`, in KiB. */
  method ShortReport(g: Groups) returns (node: nat, cache: nat)
    ensures node == 4 * Total(g.group, Nodes()) && cache == 4 * Total(g.group, Caches())
  {
    hide Total;
    node, cache := 0, 0;
    var left := g.group;
    while left != map[]
      invariant node + 4 * Total(left, Nodes()) == 4 * Total(g.group, Nodes())
      invariant cache + 4 * Total(left, Caches()) == 4 * Total(g.group, Caches())
      decreases left.Keys
    {
      var h :| h in left;
      Pick(left, Nodes(), h);
      Pick(left, Caches(), h);
      node, cache := node + left[h].node * 4, cache + left[h].cache * 4;
      left := left - {h};
    }
    Zero(left, Nodes());
    Zero(left, Caches());
  }

  /** The counters of all stacks together count every live page once. */
  lemma ReportedIsLive(es: seq<Event>)
    ensures Total(After(es).groups.group, Nodes()) == Total(RecordOf(es).live, HeldFrames(false))
  {
    hide Total, After, RecordOf, Number, Order;
    HoldsLive(es);
    var g, live := After(es).groups, RecordOf(es).live;
    var shares := Shares(g.lastStack, Frames(), HashIn(), g.group.Keys);
    SharesAddUp(g.lastStack, Frames(), HashIn(), g.group.Keys);
    Same(g.group, Nodes(), shares, Itself());
    Same(g.lastStack, Frames(), live, HeldFrames(false));
  }

  /** While the counters are exact, so is the page cache figure. */
  lemma ExactCacheReported(es: seq<Event>)
    requires CacheExact(After(es).groups)
    ensures Total(After(es).groups.group, Caches()) == Total(RecordOf(es).live, HeldFrames(true))
  {
    hide Total, After, RecordOf, Number, Order;
    HoldsLive(es);
    var g, live := After(es).groups, RecordOf(es).live;
    var shares := Shares(g.lastStack, CachedFrames(), HashIn(), g.group.Keys);
    SharesAddUp(g.lastStack, CachedFrames(), HashIn(), g.group.Keys);
    Same(g.group, Caches(), shares, Itself());
    Same(g.lastStack, CachedFrames(), live, HeldFrames(true));
  }

  /** On a trace that never moves a mark the report's page cache figure is four
      KiB for every frame of a marked live page. */
  lemma CacheReported(es: seq<Event>)
    requires forall k :: 0 <= k < |es| ==> !MovesMark(RecordOf(es[..k]).live, es[k])
    ensures 4 * Total(After(es).groups.group, Caches()) == 4 * Total(RecordOf(es).live, HeldFrames(true))
  {
    hide CacheExact, After, RecordOf, Total, Disturbs;
    forall k | 0 <= k < |es| ensures !Disturbs(After(es[..k]).groups, es[k]) {
      DisturbsIs(es[..k], es[k]);
    }
    CacheTrace(es);
    assert es[..|es|] == es;
    ExactCacheReported(es);
  }

  // ---------------------------------------------------------------- the object

  class AllocationState {
    var pid: Option<nat>
    var lastStack: map<Page, PageState>
    var group: map<nat, Usage>
    var detector: map<Stack, nat>
    var counter: nat

    ghost function State(): Tracker
      reads this
    {
      Tracker(pid, Groups(lastStack, group, detector, counter))
    }

    ghost predicate Valid()
      reads this
    {
      Inv(State().groups)
    }

    constructor ()
      ensures Valid() && State() == After([])
    {
      pid := None;
      lastStack, group, detector, counter := map[], map[], map[], 0;
    }

    /** A page leaves its stack; the counter always covers it. */
    method Detach(p: Page)
      requires CanDetach(State().groups, p)
      modifies this`lastStack, this`group
      ensures State().groups == Detached(old(State().groups), p) && pid == old(pid)
    {
      hide Inv, Number;
      var h := lastStack[p].hash;
      var usage := group[h];
      group := group[h := usage.(node := usage.node - Number(p))];
      lastStack := lastStack - {p};
    }

    method Attach(p: Page, stack: Stack, forCache: bool)
      requires stack in detector
      modifies this`lastStack, this`group
      ensures State().groups == Attached(old(State().groups), p, stack, forCache) && pid == old(pid)
    {
      hide Inv, Number, Order;
      var h := detector[stack];
      if h in group {
        group := group[h := group[h].(node := group[h].node + Number(p))];
      } else {
        var usage := Usage(0, 0, stack);
        group := group[h := usage.(node := usage.node + Number(p))];
      }
      lastStack := lastStack[p := PageState(h, forCache, Order(p))];
    }

    method TrackAlloc(page: Page, stack: Stack, pid': nat)
      requires Valid()
      modifies this
      ensures State() == Step(old(State()), Alloc(page, stack, pid'))
      ensures Valid()
    {
      hide Inv, Number, Order, Attached, Detached;
      ghost var g := State().groups;
      pid := Some(pid');
      if stack !in detector {
        counter := counter + 1;
        detector := detector[stack := counter];
      }
      assert State().groups == Noted(g, stack);
      NotedKeeps(g, stack);
      var forCache := false;
      if page in lastStack {
        var state := lastStack[page];
        if state.hash == detector[stack] {
          return;
        }
        forCache := state.forCache;
        Detachable(State().groups, page);
        DetachedSame(State().groups, page);
        Detach(page);
      }
      Attach(page, stack, forCache);
    }

    method TrackFree(page: Page, pid': nat)
      requires Valid()
      modifies this
      ensures State() == Step(old(State()), Free(page, pid'))
      ensures Valid()
    {
      hide Inv, Number, Order, Detached;
      if pid != Some(pid') {
        return;
      }
      if page in lastStack {
        Detachable(State().groups, page);
        if lastStack[page].forCache {
          WithCacheKeeps(State().groups, page, false);
          MarkOnly(page, false);
          Detachable(State().groups, page);
        }
        Detach(page);
      }
    }

    /** The mark of a page and the page cache counter of its stack. */
    method MarkOnly(page: Page, b: bool)
      requires page in lastStack && lastStack[page].hash in group
      modifies this`lastStack, this`group
      ensures State().groups == WithCache(old(State().groups), page, b) && pid == old(pid)
    {
      hide Inv, Number;
      var state := lastStack[page];
      group := group[state.hash := Cached(group[state.hash], page, b)];
      lastStack := lastStack[page := state.(forCache := b)];
    }

    method MarkPageCache(page: Page, b: bool)
      requires Valid()
      modifies this
      ensures State() == Step(old(State()), Mark(page, b))
      ensures Valid()
    {
      hide Inv, Number, Order, Detached, WithCache;
      if page in lastStack && lastStack[page].forCache != b {
        Detachable(State().groups, page);
        StoredOrder(State().groups, page);
        var p := SetOrder(page, lastStack[page].order);
        WithCacheKeeps(State().groups, page, b);
        MarkOnly(p, b);
        if !b {
          WithCacheSame(old(State().groups), page, b);
          Detachable(State().groups, page);
          Detach(p);
        }
      }
    }
  }

  /** The order kept with a page is its own. */
  lemma StoredOrder(g: Groups, p: Page)
    requires Inv(g) && p in g.lastStack
    ensures SetOrder(p, g.lastStack[p].order) == p
  {
    Packing(0, 0, p);
  }
}
