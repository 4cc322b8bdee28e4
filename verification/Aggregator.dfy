/** The aggregating tracker: pages by frame number alone, the order remembered
    from the first allocation. */
module Aggregators {
  import opened Sums
  import opened Pages
  import opened PageTraces

  /** Counters are taken as integers: below zero the program would wrap. */
  datatype Group = Group(path: Stack, value: int, cache: int)

  datatype PageInfo = PageInfo(index: nat, order: nat, isAllocated: bool, cached: bool)

  datatype Table = Table(
    counter: nat,
    paths: map<Stack, nat>,
    pages: map<nat, PageInfo>,
    groups: map<nat, Group>)

  const EMPTY_TABLE := Table(0, map[], map[], map[])

  function Indexed(a: Table, stack: Stack): Table {
    if stack in a.paths then a else a.(paths := a.paths[stack := a.counter], counter := a.counter + 1)
  }

  function Released(g: Group, info: PageInfo): Group {
    var count := TwoTo(info.order);
    g.(value := if info.isAllocated then g.value - count else g.value,
       cache := if info.cached then g.cache - count else g.cache)
  }

  /** The page leaves the stack it is counted under. */
  function Taken(a: Table, pfn: nat): Table
    requires pfn in a.pages && a.pages[pfn].index in a.groups
  {
    var i := a.pages[pfn].index;
    a.(groups := a.groups[i := Released(a.groups[i], a.pages[pfn])], pages := a.pages - {pfn})
  }

  /** The page is counted under the stack, with its order and its mark. */
  function Placed(a: Table, pfn: nat, stack: Stack, order: nat, cached: bool): Table
    requires stack in a.paths
  {
    var i := a.paths[stack];
    var g := if i in a.groups then a.groups[i] else Group(stack, 0, 0);
    a.(groups := a.groups[i := g.(value := g.value + TwoTo(order))],
       pages := a.pages[pfn := PageInfo(i, order, true, cached)])
  }

  predicate Counted(a: Table, pfn: nat) {
    pfn in a.pages && a.pages[pfn].index in a.groups
  }

  /** `track_alloc`. A page already counted keeps its order and mark; counted
      under the same stack it is counted once more. */
  function Allocated(a: Table, pfn: nat, order: nat, stack: Stack): Table
    requires pfn in a.pages ==> Counted(a, pfn)
  {
    var n := Indexed(a, stack);
    if pfn !in a.pages then Placed(n, pfn, stack, order, false)
    else
      var info := a.pages[pfn];
      if info.index == n.paths[stack] then Placed(n, pfn, stack, info.order, info.cached)
      else Placed(Taken(n, pfn), pfn, stack, info.order, info.cached)
  }

  function Freed(a: Table, pfn: nat): Table
    requires pfn in a.pages ==> Counted(a, pfn)
  {
    if pfn in a.pages then Taken(a, pfn) else a
  }

  function Recached(a: Table, pfn: nat, b: bool): Table
    requires Counted(a, pfn)
  {
    var info := a.pages[pfn];
    var count, g := TwoTo(info.order), a.groups[info.index];
    a.(groups := a.groups[info.index := g.(cache := if b then g.cache + count else g.cache - count)],
       pages := a.pages[pfn := info.(cached := b)])
  }

  function Marked(a: Table, pfn: nat, b: bool): Table
    requires pfn in a.pages ==> Counted(a, pfn)
  {
    if pfn in a.pages && a.pages[pfn].cached != b then Recached(a, pfn, b) else a
  }

  // ---------------------------------------------------------------- the invariant

  function IndexOf(): (nat, PageInfo) -> nat {
    (f, i: PageInfo) => i.index
  }

  function Weigh(f: nat, i: PageInfo, cache: bool): nat {
    if cache && !i.cached then 0 else TwoTo(i.order)
  }

  function Weighed(cache: bool): (nat, PageInfo) -> nat {
    (f, i) => Weigh(f, i, cache)
  }

  ghost function Due(a: Table, i: nat, cache: bool): nat {
    Share(a.pages, Weighed(cache), IndexOf(), i)
  }

  /** Every stack has its own index. */
  ghost predicate PathsApart(paths: map<Stack, nat>, counter: nat) {
    && (forall s :: s in paths ==> paths[s] < counter)
    && (forall s, t :: s in paths && t in paths && paths[s] == paths[t] ==> s == t)
  }

  ghost predicate Linked(a: Table) {
    && PathsApart(a.paths, a.counter)
    && (forall i :: i in a.groups ==> a.groups[i].path in a.paths && a.paths[a.groups[i].path] == i)
    && (forall f :: f in a.pages ==> Counted(a, f) && a.pages[f].isAllocated)
  }

  // ---------------------------------------------------------------- one page at a time

  lemma DueWithout(a: Table, pfn: nat, i: nat, cache: bool)
    requires pfn in a.pages
    ensures Due(a, i, cache) ==
            Share(a.pages - {pfn}, Weighed(cache), IndexOf(), i) +
            if a.pages[pfn].index == i then Weigh(pfn, a.pages[pfn], cache) else 0
  {
    Pick(a.pages, InGroup(Weighed(cache), IndexOf(), i), pfn);
  }

  lemma DueWith(pages: map<nat, PageInfo>, pfn: nat, info: PageInfo, i: nat, cache: bool)
    requires pfn !in pages
    ensures Share(pages[pfn := info], Weighed(cache), IndexOf(), i) ==
            Share(pages, Weighed(cache), IndexOf(), i) + if info.index == i then Weigh(pfn, info, cache) else 0
  {
    Added(pages, InGroup(Weighed(cache), IndexOf(), i), pfn, info);
  }

  lemma DueNothing(a: Table, i: nat, cache: bool)
    requires Linked(a) && i !in a.groups
    ensures Due(a, i, cache) == 0
  {
    Zero(a.pages, InGroup(Weighed(cache), IndexOf(), i));
  }

  /** What both counters of a stack differ from what is due by. */
  ghost function Excess(a: Table, i: nat, cache: bool): int
    requires i in a.groups
  {
    (if cache then a.groups[i].cache else a.groups[i].value) - Due(a, i, cache)
  }

  /** Taking a page changes no excess. */
  lemma TakenExcess(a: Table, pfn: nat, i: nat, cache: bool)
    requires Linked(a) && pfn in a.pages && i in a.groups
    ensures i in Taken(a, pfn).groups && Excess(Taken(a, pfn), i, cache) == Excess(a, i, cache)
  {
    hide Share, TwoTo;
    DueWithout(a, pfn, i, cache);
  }

  lemma TakenLinked(a: Table, pfn: nat)
    requires Linked(a) && pfn in a.pages
    ensures Linked(Taken(a, pfn))
  {
    hide TwoTo;
    var a' := Taken(a, pfn);
    forall f | f in a'.pages ensures Counted(a', f) && a'.pages[f].isAllocated {
      assert Counted(a, f);
    }
  }

  /** Placing a page that is not counted yet: its mark is not. */
  lemma PlacedExcess(a: Table, pfn: nat, stack: Stack, order: nat, cached: bool, i: nat, cache: bool)
    requires Linked(a) && stack in a.paths && pfn !in a.pages && (i in a.groups || i == a.paths[stack])
    ensures var a' := Placed(a, pfn, stack, order, cached);
            i in a'.groups &&
            Excess(a', i, cache) == (if i in a.groups then Excess(a, i, cache) else 0) -
                                    (if cache && cached && i == a.paths[stack] then TwoTo(order) else 0)
  {
    hide Share, TwoTo;
    var a' := Placed(a, pfn, stack, order, cached);
    DueWith(a.pages, pfn, a'.pages[pfn], i, cache);
    if i !in a.groups {
      DueNothing(a, i, cache);
    }
  }

  lemma PlacedLinked(a: Table, pfn: nat, stack: Stack, order: nat, cached: bool)
    requires Linked(a) && stack in a.paths
    ensures Linked(Placed(a, pfn, stack, order, cached))
  {
    hide TwoTo;
    var a' := Placed(a, pfn, stack, order, cached);
    forall f | f in a'.pages ensures Counted(a', f) && a'.pages[f].isAllocated {
      if f != pfn {
        assert Counted(a, f);
      }
    }
  }

  lemma IndexedLinked(a: Table, stack: Stack)
    requires Linked(a)
    ensures Linked(Indexed(a, stack)) && stack in Indexed(a, stack).paths
    ensures Indexed(a, stack).groups == a.groups && Indexed(a, stack).pages == a.pages
  {
    hide PathsApart;
    var n := Indexed(a, stack);
    if stack !in a.paths {
      PathAdded(a.paths, a.counter, stack);
    }
    forall i | i in n.groups ensures n.groups[i].path in n.paths && n.paths[n.groups[i].path] == i {
      assert a.groups[i].path in a.paths;
    }
    forall f | f in n.pages ensures Counted(n, f) && n.pages[f].isAllocated {
      assert Counted(a, f);
    }
  }

  lemma PathAdded(paths: map<Stack, nat>, counter: nat, stack: Stack)
    requires PathsApart(paths, counter) && stack !in paths
    ensures PathsApart(paths[stack := counter], counter + 1)
  {
  }

  /** Counting a page again under the same stack adds its frames once more. */
  lemma AgainExcess(a: Table, pfn: nat, stack: Stack, i: nat, cache: bool)
    requires Linked(a) && stack in a.paths && pfn in a.pages && a.pages[pfn].index == a.paths[stack] && i in a.groups
    ensures var a' := Placed(a, pfn, stack, a.pages[pfn].order, a.pages[pfn].cached);
            a'.pages == a.pages && i in a'.groups &&
            Excess(a', i, cache) ==
            Excess(a, i, cache) + if !cache && i == a.paths[stack] then TwoTo(a.pages[pfn].order) else 0
  {
    hide Share, TwoTo;
    var a' := Placed(a, pfn, stack, a.pages[pfn].order, a.pages[pfn].cached);
    assert Counted(a, pfn);
    assert a'.pages == a.pages;
  }

  lemma RecachedExcess(a: Table, pfn: nat, b: bool, i: nat, cache: bool)
    requires Linked(a) && pfn in a.pages && a.pages[pfn].cached != b && i in a.groups
    ensures i in Recached(a, pfn, b).groups && Excess(Recached(a, pfn, b), i, cache) == Excess(a, i, cache)
  {
    hide Share, TwoTo;
    var a', info := Recached(a, pfn, b), a.pages[pfn].(cached := b);
    DueWithout(a, pfn, i, cache);
    DueWithout(a', pfn, i, cache);
    assert a'.pages - {pfn} == a.pages - {pfn};
  }

  lemma RecachedLinked(a: Table, pfn: nat, b: bool)
    requires Linked(a) && pfn in a.pages
    ensures Linked(Recached(a, pfn, b))
  {
    hide TwoTo;
    var a' := Recached(a, pfn, b);
    forall f | f in a'.pages ensures Counted(a', f) && a'.pages[f].isAllocated {
      assert Counted(a, f);
    }
  }

  // ---------------------------------------------------------------- steps

  predicate CountedUnder(a: Table, e: Event, same: bool) {
    && e.Alloc? && Counted(a, Pfn(e.page))
    && (a.groups[a.pages[Pfn(e.page)].index].path == e.stack) == same
  }

  /** A counted page is allocated again by the same stack. */
  predicate Repeats(a: Table, e: Event) {
    CountedUnder(a, e, true)
  }

  /** A counted page with a mark is allocated again by another stack. */
  predicate Moves(a: Table, e: Event) {
    CountedUnder(a, e, false) && a.pages[Pfn(e.page)].cached
  }

  function Step(a: Table, e: Event): (a': Table)
    requires Linked(a)
    ensures Linked(a')
  {
    StepLinked(a, e);
    match e
    case Alloc(p, stack, _) => Allocated(a, Pfn(p), Order(p), stack)
    case Free(p, _) => Freed(a, Pfn(p))
    case Mark(p, b) => Marked(a, Pfn(p), b)
  }

  lemma StepLinked(a: Table, e: Event)
    requires Linked(a)
    ensures Pfn(e.page) in a.pages ==> Counted(a, Pfn(e.page))
    ensures match e
            case Alloc(p, stack, _) => Linked(Allocated(a, Pfn(p), Order(p), stack))
            case Free(p, _) => Linked(Freed(a, Pfn(p)))
            case Mark(p, b) => Linked(Marked(a, Pfn(p), b))
  {
    hide Taken, Placed, Recached, Pfn, Order, Indexed, Linked;
    var f := Pfn(e.page);
    IsCounted(a, f);
    match e
    case Alloc(p, stack, _) =>
      IndexedLinked(a, stack);
      var n := Indexed(a, stack);
      if f !in a.pages {
        PlacedLinked(n, f, stack, Order(p), false);
      } else if a.pages[f].index == n.paths[stack] {
        PlacedLinked(n, f, stack, a.pages[f].order, a.pages[f].cached);
      } else {
        TakenLinked(n, f);
        TakenSame(n, f);
        PlacedLinked(Taken(n, f), f, stack, a.pages[f].order, a.pages[f].cached);
      }
    case Free(p, _) =>
      if f in a.pages {
        TakenLinked(a, f);
      }
    case Mark(p, b) =>
      if f in a.pages {
        RecachedLinked(a, f, b);
      }
  }

  lemma IsCounted(a: Table, f: nat)
    requires Linked(a)
    ensures f in a.pages ==> Counted(a, f) && a.pages[f].isAllocated
  {
  }

  lemma TakenSame(a: Table, f: nat)
    requires Counted(a, f)
    ensures Taken(a, f).paths == a.paths && f !in Taken(a, f).pages && Taken(a, f).groups.Keys == a.groups.Keys
  {
  }

  /** A page is counted under the stack it is found under. */
  lemma UnderItsStack(a: Table, f: nat, stack: Stack)
    requires Linked(a) && f in a.pages && stack in a.paths
    ensures Counted(a, f) && (a.pages[f].index == a.paths[stack] <==> a.groups[a.pages[f].index].path == stack)
  {
    assert Counted(a, f);
  }

  /** The stack an allocation counts under. */
  function Target(a: Table, stack: Stack): nat {
    if stack in a.paths then a.paths[stack] else a.counter
  }

  /** What a step adds to the excess of a counter: frames counted twice, and
      marks that moved without their frames. */
  function Error(a: Table, e: Event, i: nat, cache: bool): int {
    if !cache && Repeats(a, e) && i == Target(a, e.stack) then TwoTo(a.pages[Pfn(e.page)].order)
    else if cache && Moves(a, e) && i == Target(a, e.stack) then 0 - TwoTo(a.pages[Pfn(e.page)].order)
    else 0
  }

  lemma AllocExcess(a: Table, e: Event, i: nat, cache: bool)
    requires Linked(a) && e.Alloc? && i in Step(a, e).groups
    ensures Excess(Step(a, e), i, cache) == (if i in a.groups then Excess(a, i, cache) else 0) + Error(a, e, i, cache)
  {
    hide Taken, Placed, Pfn, Order, Linked, TwoTo, Excess;
    var f, stack := Pfn(e.page), e.stack;
    IsCounted(a, f);
    IndexedLinked(a, stack);
    var n := Indexed(a, stack);
    assert n.paths[stack] == Target(a, stack);
    if i in a.groups {
      SameExcess(a, n, i, cache);
    }
    if f !in a.pages {
      PlacedGroups(n, f, stack, Order(e.page), false);
      PlacedExcess(n, f, stack, Order(e.page), false, i, cache);
    } else {
      var info := a.pages[f];
      UnderItsStack(n, f, stack);
      if info.index == n.paths[stack] {
        PlacedGroups(n, f, stack, info.order, info.cached);
        AgainExcess(n, f, stack, i, cache);
      } else {
        TakenLinked(n, f);
        TakenSame(n, f);
        var t := Taken(n, f);
        PlacedGroups(t, f, stack, info.order, info.cached);
        PlacedExcess(t, f, stack, info.order, info.cached, i, cache);
        if i in a.groups {
          TakenExcess(n, f, i, cache);
        }
      }
    }
  }

  lemma SameExcess(a: Table, b: Table, i: nat, cache: bool)
    requires i in a.groups && b.groups == a.groups && b.pages == a.pages
    ensures Excess(b, i, cache) == Excess(a, i, cache)
  {
  }

  lemma PlacedGroups(a: Table, f: nat, stack: Stack, order: nat, cached: bool)
    requires stack in a.paths
    ensures Placed(a, f, stack, order, cached).groups.Keys == a.groups.Keys + {a.paths[stack]}
  {
  }

  /** The excess of a counter changes only by the errors of allocations. */
  lemma StepExcess(a: Table, e: Event, i: nat, cache: bool)
    requires Linked(a) && i in Step(a, e).groups
    ensures Excess(Step(a, e), i, cache) == (if i in a.groups then Excess(a, i, cache) else 0) + Error(a, e, i, cache)
  {
    hide Pfn, Order, Linked, TwoTo, Excess, Allocated;
    IsCounted(a, Pfn(e.page));
    match e
    case Alloc(_, _, _) =>
      AllocExcess(a, e, i, cache);
    case Free(p, _) =>
      if Pfn(p) in a.pages {
        TakenSame(a, Pfn(p));
        TakenExcess(a, Pfn(p), i, cache);
      }
    case Mark(p, b) =>
      if Pfn(p) in a.pages && a.pages[Pfn(p)].cached != b {
        RecachedExcess(a, Pfn(p), b, i, cache);
      }
  }

  // ---------------------------------------------------------------- traces

  function Aggregated(es: seq<Event>): (a: Table)
    ensures Linked(a)
  {
    if es == [] then EMPTY_TABLE else Step(Aggregated(es[..|es| - 1]), es[|es| - 1])
  }

  ghost predicate Never(es: seq<Event>, bad: (Table, Event) -> bool) {
    forall k :: 0 <= k < |es| ==> !bad(Aggregated(es[..k]), es[k])
  }

  lemma NeverPush(es: seq<Event>, bad: (Table, Event) -> bool)
    requires es != []
    ensures var n := |es| - 1; Never(es, bad) <==> Never(es[..n], bad) && !bad(Aggregated(es[..n]), es[n])
  {
    hide Aggregated;
    var n := |es| - 1;
    assert forall k :: 0 <= k < n ==> es[..n][..k] == es[..k] && es[..n][k] == es[k];
    if Never(es[..n], bad) && !bad(Aggregated(es[..n]), es[n]) {
      forall k | 0 <= k < |es| ensures !bad(Aggregated(es[..k]), es[k]) {
        if k < n {
          assert !bad(Aggregated(es[..n][..k]), es[..n][k]);
        }
      }
    }
    if Never(es, bad) {
      forall k | 0 <= k < n ensures !bad(Aggregated(es[..n][..k]), es[..n][k]) {
        assert !bad(Aggregated(es[..k]), es[k]);
      }
    }
  }

  /** What is known of a frame: the order it was first allocated with, the stack
      that allocated it last, and its mark. */
  datatype FrameInfo = FrameInfo(order: nat, stack: Stack, cached: bool)

  function Learned(m: map<nat, FrameInfo>, e: Event): map<nat, FrameInfo> {
    var f := Pfn(e.page);
    match e
    case Alloc(p, stack, _) =>
      if f in m then m[f := m[f].(stack := stack)] else m[f := FrameInfo(Order(p), stack, false)]
    case Free(_, _) => m - {f}
    case Mark(_, b) => if f in m then m[f := m[f].(cached := b)] else m
  }

  function LearnedFrom(es: seq<Event>): map<nat, FrameInfo> {
    if es == [] then map[] else Learned(LearnedFrom(es[..|es| - 1]), es[|es| - 1])
  }

  ghost predicate Knows(a: Table, m: map<nat, FrameInfo>) {
    && a.pages.Keys == m.Keys
    && forall f :: f in m ==>
         Counted(a, f) && m[f] == FrameInfo(a.pages[f].order, a.groups[a.pages[f].index].path, a.pages[f].cached)
  }

  lemma TakenKnows(a: Table, m: map<nat, FrameInfo>, f: nat)
    requires Knows(a, m) && f in a.pages && a.pages[f].index in a.groups
    ensures Knows(Taken(a, f), m - {f})
  {
    hide TwoTo;
    var i := a.pages[f].index;
    assert Released(a.groups[i], a.pages[f]).path == a.groups[i].path;
  }

  lemma PlacedKnows(a: Table, m: map<nat, FrameInfo>, f: nat, stack: Stack, order: nat, cached: bool)
    requires Knows(a, m) && stack in a.paths
    requires a.paths[stack] in a.groups ==> a.groups[a.paths[stack]].path == stack
    ensures Knows(Placed(a, f, stack, order, cached), m[f := FrameInfo(order, stack, cached)])
  {
    hide TwoTo;
  }

  lemma AllocatedKnows(a: Table, m: map<nat, FrameInfo>, f: nat, order: nat, stack: Stack)
    requires Linked(a) && Knows(a, m)
    ensures f in a.pages ==> Counted(a, f)
    ensures Knows(Allocated(a, f, order, stack),
                  if f in m then m[f := m[f].(stack := stack)] else m[f := FrameInfo(order, stack, false)])
  {
    hide Placed, Taken, TwoTo, Linked;
    var n := Indexed(a, stack);
    OwnPath(a, stack);
    if f !in m {
      PlacedKnows(n, m, f, stack, order, false);
    } else if a.pages[f].index == n.paths[stack] {
      PlacedKnows(n, m, f, stack, m[f].order, m[f].cached);
    } else {
      TakenKnows(n, m, f);
      TakenPaths(n, f);
      PlacedKnows(Taken(n, f), m - {f}, f, stack, m[f].order, m[f].cached);
      assert (m - {f})[f := FrameInfo(m[f].order, stack, m[f].cached)] == m[f := m[f].(stack := stack)];
    }
  }

  lemma TakenPaths(a: Table, f: nat)
    requires f in a.pages && a.pages[f].index in a.groups
    ensures var t := Taken(a, f);
            t.paths == a.paths && t.groups.Keys == a.groups.Keys &&
            forall i :: i in a.groups ==> t.groups[i].path == a.groups[i].path
  {
  }

  /** The group of a stack is under its index. */
  lemma OwnPath(a: Table, stack: Stack)
    requires Linked(a)
    ensures var n := Indexed(a, stack);
            stack in n.paths && (n.paths[stack] in n.groups ==> n.groups[n.paths[stack]].path == stack)
  {
  }

  lemma StepKnows(a: Table, m: map<nat, FrameInfo>, e: Event)
    requires Linked(a) && Knows(a, m)
    ensures Knows(Step(a, e), Learned(m, e))
  {
    hide Pfn, Order, TwoTo, Allocated, Taken, Linked;
    var f := Pfn(e.page);
    match e
    case Alloc(p, stack, _) => AllocatedKnows(a, m, f, Order(p), stack);
    case Free(_, _) =>
      if f in m {
        TakenKnows(a, m, f);
      } else {
        assert m - {f} == m;
      }
    case Mark(_, b) =>
      if f in m && m[f].cached == b {
        assert m[f := m[f].(cached := b)] == m;
      }
  }

  /** On every trace the aggregator knows exactly the frames that were allocated
      and not freed, each with its first order, its last stack and its mark. */
  lemma {:induction false} AggregatedKnows(es: seq<Event>)
    ensures Knows(Aggregated(es), LearnedFrom(es))
    decreases |es|
  {
    hide Knows, Step, Learned, Linked;
    if es == [] {
      NothingKnown();
    } else {
      var n := |es| - 1;
      AggregatedKnows(es[..n]);
      StepKnows(Aggregated(es[..n]), LearnedFrom(es[..n]), es[n]);
    }
  }

  lemma NothingKnown()
    ensures Knows(EMPTY_TABLE, map[])
  {
  }

  /** Whether the step disturbs the counters of one kind. */
  predicate Bad(a: Table, e: Event, cache: bool) {
    if cache then Moves(a, e) else Repeats(a, e)
  }

  function Disturbing(cache: bool): (Table, Event) -> bool {
    (a, e) => Bad(a, e, cache)
  }

  /** All counters of one kind are exact. */
  ghost predicate Right(a: Table, cache: bool) {
    forall i :: i in a.groups ==> Excess(a, i, cache) == 0
  }

  /** Frames are never counted too low, marks never too high. */
  ghost predicate OneSided(a: Table) {
    forall i :: i in a.groups ==> Excess(a, i, false) >= 0 >= Excess(a, i, true)
  }

  lemma StepGroups(a: Table, e: Event)
    requires Linked(a)
    ensures a.groups.Keys <= Step(a, e).groups.Keys
    ensures e.Alloc? ==> Target(a, e.stack) in Step(a, e).groups
  {
    hide TwoTo, Pfn, Order, Linked;
    IsCounted(a, Pfn(e.page));
  }

  lemma StepOneSided(a: Table, e: Event)
    requires Linked(a) && OneSided(a)
    ensures OneSided(Step(a, e))
  {
    hide Step, Linked, Excess, Repeats, Moves, Target;
    forall i | i in Step(a, e).groups ensures Excess(Step(a, e), i, false) >= 0 >= Excess(Step(a, e), i, true) {
      StepExcess(a, e, i, false);
      StepExcess(a, e, i, true);
    }
  }

  /** Once wrong, a counter stays wrong; a step makes it wrong exactly when it
      disturbs it. */
  lemma StepRight(a: Table, e: Event, cache: bool)
    requires Linked(a) && OneSided(a)
    ensures Right(Step(a, e), cache) <==> Right(a, cache) && !Bad(a, e, cache)
  {
    hide Step, Linked, Excess, CountedUnder, Target, TwoTo;
    var a' := Step(a, e);
    StepGroups(a, e);
    forall i | i in a'.groups
      ensures Excess(a', i, cache) == (if i in a.groups then Excess(a, i, cache) else 0) + Error(a, e, i, cache)
    {
      StepExcess(a, e, i, cache);
    }
    if Bad(a, e, cache) {
      IsCountedBy(a, e, cache);
      var i := Target(a, e.stack);
      PowerPositive(a.pages[Pfn(e.page)].order);
      assert Excess(a', i, cache) != 0;
    } else if !Right(a, cache) {
      var i :| i in a.groups && Excess(a, i, cache) != 0;
      assert Excess(a', i, cache) != 0;
    }
  }

  lemma IsCountedBy(a: Table, e: Event, cache: bool)
    requires Bad(a, e, cache)
    ensures e.Alloc? && Pfn(e.page) in a.pages
  {
  }

  /** On every trace: no counter of frames is below its pages. The counters of
      frames are exact if and only if no stack ever allocated a page again
      that was counted under it, and the counters of the page cache if and
      only if no marked page was ever allocated again by another stack. */
  lemma {:induction false} Traced(es: seq<Event>, cache: bool)
    ensures OneSided(Aggregated(es))
    ensures Right(Aggregated(es), cache) <==> Never(es, Disturbing(cache))
    decreases |es|
  {
    hide Step, Excess, Linked, Repeats, Moves;
    if es != [] {
      var n := |es| - 1;
      Traced(es[..n], cache);
      StepOneSided(Aggregated(es[..n]), es[n]);
      StepRight(Aggregated(es[..n]), es[n], cache);
      NeverPush(es, Disturbing(cache));
    }
  }

  /** So taking a page off its stack never underflows. */
  lemma NoUnderflow(es: seq<Event>, f: nat)
    requires f in Aggregated(es).pages
    ensures var a := Aggregated(es);
            Counted(a, f) && a.groups[a.pages[f].index].value >= TwoTo(a.pages[f].order)
  {
    hide Aggregated, TwoTo, Total;
    Traced(es, false);
    var a := Aggregated(es);
    IsCounted(a, f);
    AtMost(a.pages, InGroup(Weighed(false), IndexOf(), a.pages[f].index), f);
    assert Excess(a, a.pages[f].index, false) >= 0;
  }

  /** But the page cache counter can: a marked page that moved to a new stack
      takes off it, when freed, what was never put on. */
  lemma CacheUnderflows(p: Page, a: Stack, b: Stack)
    requires a != b
    ensures var t := Aggregated([Alloc(p, a, 0), Mark(p, true), Alloc(p, b, 0), Free(p, 0)]);
            1 in t.groups && t.groups[1].path == b && t.groups[1].cache < 0
  {
    hide Pfn, Order, TwoTo, Aggregated, Linked;
    var e1, e2, e3, e4 := Alloc(p, a, 0), Mark(p, true), Alloc(p, b, 0), Free(p, 0);
    var f, o := Pfn(p), Order(p);
    var c := TwoTo(o);
    PowerPositive(o);
    assert Aggregated([]) == EMPTY_TABLE by {
      Nothing();
    }
    Next([], e1);
    assert [] + [e1] == [e1];
    assert Aggregated([e1]) == Table(1, map[a := 0], map[f := PageInfo(0, o, true, false)], map[0 := Group(a, c, 0)]);
    Next([e1], e2);
    assert [e1] + [e2] == [e1, e2];
    var t := Aggregated([e1, e2]);
    assert t == Table(1, map[a := 0], map[f := PageInfo(0, o, true, true)], map[0 := Group(a, c, c)]);
    Next([e1, e2], e3);
    assert [e1, e2] + [e3] == [e1, e2, e3];
    var u := Aggregated([e1, e2, e3]);
    assert u.groups[1] == Group(b, c, 0) && u.pages[f] == PageInfo(1, o, true, true);
    Next([e1, e2, e3], e4);
    assert [e1, e2, e3] + [e4] == [e1, e2, e3, e4];
  }

  lemma Nothing()
    ensures Aggregated([]) == EMPTY_TABLE
  {
  }

  lemma Next(es: seq<Event>, e: Event)
    ensures Aggregated(es + [e]) == Step(Aggregated(es), e)
  {
    assert (es + [e])[..|es|] == es;
  }

  /** What was known of a page is overwritten when it is placed. */
  lemma PlacedOver(a: Table, pfn: nat, stack: Stack, order: nat, cached: bool)
    requires stack in a.paths
    ensures Placed(a.(pages := a.pages - {pfn}), pfn, stack, order, cached) == Placed(a, pfn, stack, order, cached)
  {
    var i := PageInfo(a.paths[stack], order, true, cached);
    assert (a.pages - {pfn})[pfn := i] == a.pages[pfn := i];
  }

  // ---------------------------------------------------------------- the object

  class Aggregator {
    var counter: nat
    var paths: map<Stack, nat>
    var pages: map<nat, PageInfo>
    var groups: map<nat, Group>

    ghost function State(): Table
      reads this
    {
      Table(counter, paths, pages, groups)
    }

    constructor ()
      ensures State() == Aggregated([])
    {
      counter := 0;
      paths, pages, groups := map[], map[], map[];
    }

    /** The counters of the stack a page was counted under. */
    method Release(info: PageInfo)
      requires info.index in groups
      modifies this`groups
      ensures groups == old(groups)[info.index := Released(old(groups)[info.index], info)]
    {
      var count, usage := TwoTo(info.order), groups[info.index];
      if info.isAllocated {
        usage := usage.(value := usage.value - count);
      }
      if info.cached {
        usage := usage.(cache := usage.cache - count);
      }
      groups := groups[info.index := usage];
    }

    method TrackAlloc(page: Page, stack: Stack, ghost pid: nat)
      requires Linked(State())
      modifies this
      ensures State() == Step(old(State()), Alloc(page, stack, pid))
      ensures Linked(State())
    {
      hide Linked, TwoTo, Pfn, Order, Released, Placed;
      var pfn := Pfn(page);
      IsCounted(State(), pfn);
      if stack !in paths {
        paths := paths[stack := counter];
        counter := counter + 1;
      }
      var index := paths[stack];
      var info := if pfn in pages then pages[pfn] else PageInfo(index, Order(page), false, false);
      ghost var n := State();
      assert n == Indexed(old(State()), stack);
      if info.index != index {
        Release(info);
        info := info.(index := index);
        PlacedOver(State(), pfn, stack, info.order, info.cached);
        assert State().(pages := State().pages - {pfn}) == Taken(n, pfn);
      }
      Place(pfn, stack, info);
    }

    /** The page under its stack, which may be new. */
    method Place(pfn: nat, stack: Stack, info: PageInfo)
      requires stack in paths && info.index == paths[stack]
      modifies this`groups, this`pages
      ensures State() == Placed(old(State()), pfn, stack, info.order, info.cached)
    {
      var usage := if info.index in groups then groups[info.index] else Group(stack, 0, 0);
      groups := groups[info.index := usage.(value := usage.value + TwoTo(info.order))];
      pages := pages[pfn := info.(isAllocated := true)];
    }

    method TrackFree(page: Page, ghost pid: nat)
      requires Linked(State())
      modifies this
      ensures State() == Step(old(State()), Free(page, pid))
      ensures Linked(State())
    {
      hide Linked, TwoTo, Pfn;
      var pfn := Pfn(page);
      IsCounted(State(), pfn);
      if pfn in pages {
        var info := pages[pfn];
        pages := pages - {pfn};
        Release(info);
      }
    }

    method MarkPageCache(page: Page, b: bool)
      requires Linked(State())
      modifies this
      ensures State() == Step(old(State()), Mark(page, b))
      ensures Linked(State())
    {
      hide Linked, TwoTo, Pfn;
      var pfn := Pfn(page);
      IsCounted(State(), pfn);
      if pfn in pages {
        var info := pages[pfn];
        var count, usage := TwoTo(info.order), groups[info.index];
        if info.cached != b {
          pages := pages[pfn := info.(cached := b)];
          groups := groups[info.index := usage.(cache := if b then usage.cache + count else usage.cache - count)];
        }
      }
    }
  }
}
