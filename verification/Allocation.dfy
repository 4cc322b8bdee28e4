/** Memory in use per call stack, kept up to date page by page. */
module Allocation {
  import opened Wrappers
  import opened Sums
  import opened Pages
  import opened PageTraces

  datatype Usage = Usage(node: nat, cache: nat, stack: Stack)

  datatype PageState = PageState(hash: nat, forCache: bool, order: nat)

  /** The value of a `Group`. */
  datatype Groups = Groups(
    lastStack: map<Page, PageState>,
    group: map<nat, Usage>,
    detector: map<Stack, nat>,
    counter: nat)

  const NO_GROUPS := Groups(map[], map[], map[], 0)

  // ---------------------------------------------------------------- what is kept

  function HashIn(): (Page, PageState) -> nat {
    (p, s: PageState) => s.hash
  }

  function Frames(): (Page, PageState) -> nat {
    (p, s: PageState) => Number(p)
  }

  function CachedNumber(p: Page, s: PageState): nat {
    if s.forCache then Number(p) else 0
  }

  function CachedFrames(): (Page, PageState) -> nat {
    (p, s) => CachedNumber(p, s)
  }

  /** The frames of the pages attributed to a stack. */
  ghost function Attributed(g: Groups, h: nat): nat {
    Share(g.lastStack, Frames(), HashIn(), h)
  }

  ghost function AttributedCache(g: Groups, h: nat): nat {
    Share(g.lastStack, CachedFrames(), HashIn(), h)
  }

  /** Each stack has its own hash. */
  ghost predicate Injective(g: Groups) {
    && (forall s :: s in g.detector ==> 1 <= g.detector[s] <= g.counter)
    && (forall s, t :: s in g.detector && t in g.detector && g.detector[s] == g.detector[t] ==> s == t)
  }

  /** Every attribution leads to a usage, and every usage to its stack. */
  ghost predicate Linked(g: Groups) {
    && (forall h :: h in g.group ==> g.group[h].stack in g.detector && g.detector[g.group[h].stack] == h)
    && (forall p :: p in g.lastStack ==> g.lastStack[p].hash in g.group && g.lastStack[p].order == Order(p))
  }

  /** The counters are exact. */
  ghost predicate Exact(g: Groups) {
    forall h :: h in g.group ==> g.group[h].node == Attributed(g, h)
  }

  ghost predicate Inv(g: Groups) {
    Injective(g) && Linked(g) && Exact(g)
  }

  ghost predicate CacheExact(g: Groups) {
    forall h :: h in g.group ==> g.group[h].cache == AttributedCache(g, h)
  }

  // ---------------------------------------------------------------- operations

  /** `decrease`, which panics unless the counter covers the page. */
  function Decreased(u: Usage, p: Page): Usage
    requires u.node >= Number(p)
  {
    u.(node := u.node - Number(p))
  }

  function Cached(u: Usage, p: Page, b: bool): Usage {
    if b then u.(cache := u.cache + Number(p))
    else if u.cache < Number(p) then u.(cache := 0)
    else u.(cache := u.cache - Number(p))
  }

  /** The stack gets a hash if it has none yet. */
  function Noted(g: Groups, stack: Stack): Groups {
    if stack in g.detector then g
    else g.(detector := g.detector[stack := g.counter + 1], counter := g.counter + 1)
  }

  predicate CanDetach(g: Groups, p: Page) {
    && p in g.lastStack && g.lastStack[p].hash in g.group
    && g.group[g.lastStack[p].hash].node >= Number(p)
  }

  function Detached(g: Groups, p: Page): Groups
    requires CanDetach(g, p)
  {
    var h := g.lastStack[p].hash;
    g.(group := g.group[h := Decreased(g.group[h], p)], lastStack := g.lastStack - {p})
  }

  function Attached(g: Groups, p: Page, stack: Stack, forCache: bool): Groups
    requires stack in g.detector
  {
    var h := g.detector[stack];
    var u := if h in g.group then g.group[h] else Usage(0, 0, stack);
    g.(group := g.group[h := u.(node := u.node + Number(p))],
       lastStack := g.lastStack[p := PageState(h, forCache, Order(p))])
  }

  lemma Detachable(g: Groups, p: Page)
    requires Inv(g) && p in g.lastStack
    ensures CanDetach(g, p)
  {
    AtMost(g.lastStack, InGroup(Frames(), HashIn(), g.lastStack[p].hash), p);
  }

  lemma NotedKeeps(g: Groups, stack: Stack)
    requires Inv(g)
    ensures Inv(Noted(g, stack)) && stack in Noted(g, stack).detector
    ensures CacheExact(Noted(g, stack)) <==> CacheExact(g)
  {
    hide Share, Order, Number;
  }

  lemma ShareRemoved(m: map<Page, PageState>, w: (Page, PageState) -> nat, p: Page, h: nat)
    requires p in m
    ensures Share(m, w, HashIn(), h) == Share(m - {p}, w, HashIn(), h) + if m[p].hash == h then w(p, m[p]) else 0
  {
    Pick(m, InGroup(w, HashIn(), h), p);
  }

  lemma ShareAdded(m: map<Page, PageState>, w: (Page, PageState) -> nat, p: Page, s: PageState, h: nat)
    requires p !in m
    ensures Share(m[p := s], w, HashIn(), h) == Share(m, w, HashIn(), h) + if s.hash == h then w(p, s) else 0
  {
    Added(m, InGroup(w, HashIn(), h), p, s);
  }

  lemma DetachedKeeps(g: Groups, p: Page)
    requires Inv(g) && CanDetach(g, p)
    ensures Inv(Detached(g, p))
  {
    hide Share, Order, Number, Exact, Injective, Linked;
    DetachedLinked(g, p);
    DetachedExact(g, p);
  }

  lemma DetachedLinked(g: Groups, p: Page)
    requires Injective(g) && Linked(g) && CanDetach(g, p)
    ensures Injective(Detached(g, p)) && Linked(Detached(g, p))
  {
    hide Order, Number;
  }

  lemma DetachedExact(g: Groups, p: Page)
    requires Exact(g) && CanDetach(g, p)
    ensures Exact(Detached(g, p))
  {
    hide Share, Order, Number;
    forall h ensures Attributed(g, h) == Attributed(Detached(g, p), h) + if g.lastStack[p].hash == h then Number(p) else 0 {
      ShareRemoved(g.lastStack, Frames(), p, h);
    }
  }

  lemma AttachedKeeps(g: Groups, p: Page, stack: Stack, forCache: bool)
    requires Inv(g) && stack in g.detector && p !in g.lastStack
    ensures Inv(Attached(g, p, stack, forCache))
  {
    hide Share, Order, Number, Exact, Injective, Linked;
    AttachedLinked(g, p, stack, forCache);
    AttachedExact(g, p, stack, forCache);
  }

  lemma AttachedLinked(g: Groups, p: Page, stack: Stack, forCache: bool)
    requires Injective(g) && Linked(g) && stack in g.detector
    ensures Injective(Attached(g, p, stack, forCache)) && Linked(Attached(g, p, stack, forCache))
  {
    hide Order, Number;
    var g' := Attached(g, p, stack, forCache);
    InjectiveStill(g, g');
    forall q | q in g'.lastStack ensures g'.lastStack[q].hash in g'.group && g'.lastStack[q].order == Order(q) {
      assert q == p || g.lastStack[q].hash in g.group;
    }
  }

  lemma AttachedExact(g: Groups, p: Page, stack: Stack, forCache: bool)
    requires Linked(g) && Exact(g) && stack in g.detector && p !in g.lastStack
    ensures Exact(Attached(g, p, stack, forCache))
  {
    hide Share, Order, Number, Linked;
    var g', h0 := Attached(g, p, stack, forCache), g.detector[stack];
    forall h ensures Attributed(g', h) == Attributed(g, h) + if h == h0 then Number(p) else 0 {
      ShareAdded(g.lastStack, Frames(), p, g'.lastStack[p], h);
    }
    if h0 !in g.group {
      NothingAttributed(g, Frames(), h0);
    }
  }

  lemma NothingAttributed(g: Groups, w: (Page, PageState) -> nat, h: nat)
    requires Linked(g) && h !in g.group
    ensures Share(g.lastStack, w, HashIn(), h) == 0
  {
    Zero(g.lastStack, InGroup(w, HashIn(), h));
  }

  /** `insert`. */
  function Inserted(g: Groups, p: Page, stack: Stack): (g': Groups)
    requires Inv(g)
    ensures Inv(g')
  {
    NotedKeeps(g, stack);
    var n := Noted(g, stack);
    if p in n.lastStack then
      if n.lastStack[p].hash == n.detector[stack] then n
      else
        Detachable(n, p);
        DetachedKeeps(n, p);
        AttachedKeeps(Detached(n, p), p, stack, n.lastStack[p].forCache);
        Attached(Detached(n, p), p, stack, n.lastStack[p].forCache)
    else
      AttachedKeeps(n, p, stack, false);
      Attached(n, p, stack, false)
  }

  function WithCache(g: Groups, p: Page, b: bool): Groups
    requires p in g.lastStack && g.lastStack[p].hash in g.group
  {
    var h := g.lastStack[p].hash;
    g.(group := g.group[h := Cached(g.group[h], p, b)], lastStack := g.lastStack[p := g.lastStack[p].(forCache := b)])
  }

  lemma WithCacheKeeps(g: Groups, p: Page, b: bool)
    requires Inv(g) && p in g.lastStack
    ensures Inv(WithCache(g, p, b))
  {
    hide Share, Order, Number, Exact, Injective, Linked;
    WithCacheLinked(g, p, b);
    WithCacheExact(g, p, b);
  }

  lemma WithCacheLinked(g: Groups, p: Page, b: bool)
    requires Injective(g) && Linked(g) && p in g.lastStack
    ensures g.lastStack[p].hash in g.group && Injective(WithCache(g, p, b)) && Linked(WithCache(g, p, b))
  {
    hide Order, Number, Injective, Cached;
    var g' := WithCache(g, p, b);
    InjectiveStill(g, g');
    CachedStack(g.group[g.lastStack[p].hash], p, b);
    forall q | q in g'.lastStack ensures g'.lastStack[q].hash in g'.group && g'.lastStack[q].order == Order(q) {
      assert g.lastStack[q].hash in g.group;
    }
  }

  lemma InjectiveStill(g: Groups, g': Groups)
    requires Injective(g) && g'.detector == g.detector && g'.counter == g.counter
    ensures Injective(g')
  {
  }

  lemma CachedStack(u: Usage, p: Page, b: bool)
    ensures Cached(u, p, b).stack == u.stack
  {
  }

  lemma WithCacheExact(g: Groups, p: Page, b: bool)
    requires Exact(g) && p in g.lastStack && g.lastStack[p].hash in g.group
    ensures Exact(WithCache(g, p, b))
  {
    hide Share, Order, Number;
    var g' := WithCache(g, p, b);
    forall h ensures Attributed(g', h) == Attributed(g, h) {
      SameShare(g.lastStack, g'.lastStack, h);
    }
  }

  lemma SameShare(m: map<Page, PageState>, m': map<Page, PageState>, h: nat)
    requires m.Keys == m'.Keys && forall p :: p in m ==> m[p].hash == m'[p].hash
    ensures Share(m, Frames(), HashIn(), h) == Share(m', Frames(), HashIn(), h)
  {
    Same(m, InGroup(Frames(), HashIn(), h), m', InGroup(Frames(), HashIn(), h));
  }

  /** `remove`. */
  function RemovedFrom(g: Groups, p: Page): (g': Groups)
    requires Inv(g)
    ensures Inv(g')
  {
    if p !in g.lastStack then g
    else
      var c := if g.lastStack[p].forCache then WithCache(g, p, false) else g;
      WithCacheKeeps(g, p, false);
      Detachable(c, p);
      DetachedKeeps(c, p);
      Detached(c, p)
  }

  /** `mark_cache`: unmarking a marked page also removes it. */
  function Marked(g: Groups, p: Page, b: bool): (g': Groups)
    requires Inv(g)
    ensures Inv(g')
  {
    if p !in g.lastStack || g.lastStack[p].forCache == b then g
    else
      WithCacheKeeps(g, p, b);
      var c := WithCache(g, p, b);
      if b then c
      else
        Detachable(c, p);
        DetachedKeeps(c, p);
        Detached(c, p)
  }

  // ---------------------------------------------------------------- against a plain record of live pages

  /** What is live: each page with the stack that allocated it last. */
  datatype Record = Record(pid: Option<nat>, live: map<Page, Held>)

  function Recorded(r: Record, e: Event): Record {
    match e
    case Alloc(p, stack, pid) => Record(Some(pid), r.live[p := Held(stack, p in r.live && r.live[p].cached)])
    case Free(p, pid) => if r.pid == Some(pid) then r.(live := r.live - {p}) else r
    case Mark(p, b) =>
      if p !in r.live || r.live[p].cached == b then r
      else if b then r.(live := r.live[p := r.live[p].(cached := true)])
      else r.(live := r.live - {p})
  }

  function RecordOf(es: seq<Event>): Record {
    if es == [] then Record(None, map[]) else Recorded(RecordOf(es[..|es| - 1]), es[|es| - 1])
  }

  /** `AllocationState`. */
  datatype Tracker = Tracker(pid: Option<nat>, groups: Groups)

  function Step(t: Tracker, e: Event): (t': Tracker)
    requires Inv(t.groups)
    ensures Inv(t'.groups)
  {
    match e
    case Alloc(p, stack, pid) => Tracker(Some(pid), Inserted(t.groups, p, stack))
    case Free(p, pid) => if t.pid == Some(pid) then t.(groups := RemovedFrom(t.groups, p)) else t
    case Mark(p, b) => t.(groups := Marked(t.groups, p, b))
  }

  function After(es: seq<Event>): (t: Tracker)
    ensures Inv(t.groups)
  {
    if es == [] then Tracker(None, NO_GROUPS) else Step(After(es[..|es| - 1]), es[|es| - 1])
  }

  /** The attributions are exactly the live pages. */
  ghost predicate Shows(g: Groups, live: map<Page, Held>) {
    && live.Keys == g.lastStack.Keys
    && forall p :: p in live ==> HeldAs(g, p, live[p])
  }

  ghost predicate HeldAs(g: Groups, p: Page, held: Held) {
    && p in g.lastStack && g.lastStack[p].hash in g.group
    && held == Held(g.group[g.lastStack[p].hash].stack, g.lastStack[p].forCache)
  }

  lemma DetachedShows(g: Groups, live: map<Page, Held>, p: Page)
    requires Shows(g, live) && CanDetach(g, p)
    ensures Shows(Detached(g, p), live - {p})
  {
    hide Number;
    forall q | q in live && q != p ensures HeldAs(Detached(g, p), q, live[q]) {
      assert HeldAs(g, q, live[q]);
    }
  }

  lemma AttachedShows(g: Groups, live: map<Page, Held>, p: Page, stack: Stack, c: bool)
    requires Shows(g, live) && stack in g.detector && p !in g.lastStack
    requires g.detector[stack] in g.group ==> g.group[g.detector[stack]].stack == stack
    ensures Shows(Attached(g, p, stack, c), live[p := Held(stack, c)])
  {
    hide Number, Order;
    forall q | q in live ensures HeldAs(Attached(g, p, stack, c), q, live[q]) {
      assert HeldAs(g, q, live[q]);
    }
  }

  lemma WithCacheShows(g: Groups, live: map<Page, Held>, p: Page, b: bool)
    requires Shows(g, live) && p in g.lastStack && g.lastStack[p].hash in g.group
    ensures Shows(WithCache(g, p, b), live[p := live[p].(cached := b)])
  {
    hide Number;
    forall q | q in live ensures HeldAs(g, q, live[q]) {
    }
    forall q | q in live && q != p ensures HeldAs(WithCache(g, p, b), q, live[q]) {
      assert HeldAs(g, q, live[q]);
    }
  }

  lemma NotedShows(g: Groups, live: map<Page, Held>, stack: Stack)
    requires Shows(g, live)
    ensures Shows(Noted(g, stack), live)
  {
    forall q | q in live ensures HeldAs(Noted(g, stack), q, live[q]) {
      assert HeldAs(g, q, live[q]);
    }
  }

  /** A hash leads back to its stack. */
  lemma HashLeadsBack(g: Groups, stack: Stack)
    requires Inv(g) && stack in g.detector && g.detector[stack] in g.group
    ensures g.group[g.detector[stack]].stack == stack
  {
    hide Exact, Order;
  }

  lemma InsertedShows(g: Groups, live: map<Page, Held>, p: Page, stack: Stack)
    requires Inv(g) && Shows(g, live)
    ensures Shows(Inserted(g, p, stack), live[p := Held(stack, p in live && live[p].cached)])
  {
    hide Inv, Attached, Detached, Noted, Shows, Order, Number;
    NotedKeeps(g, stack);
    NotedShows(g, live, stack);
    var n := Noted(g, stack);
    NotedSame(g, stack);
    KeysShown(g, live);
    if p in n.lastStack {
      Detachable(n, p);
      var u := n.lastStack[p];
      ShownAs(n, live, p);
      if u.hash == n.detector[stack] {
        HashLeadsBack(n, stack);
        assert live[p := live[p]] == live;
      } else {
        DetachedKeeps(n, p);
        DetachedShows(n, live, p);
        DetachedSame(n, p);
        var d := Detached(n, p);
        AttachedNext(d, live - {p}, p, stack, u.forCache);
        assert (live - {p})[p := Held(stack, u.forCache)] == live[p := Held(stack, u.forCache)];
      }
    } else {
      AttachedNext(n, live, p, stack, false);
    }
  }

  lemma AttachedNext(g: Groups, live: map<Page, Held>, p: Page, stack: Stack, c: bool)
    requires Inv(g) && Shows(g, live) && stack in g.detector && p !in g.lastStack
    ensures Shows(Attached(g, p, stack, c), live[p := Held(stack, c)])
  {
    hide Inv, Attached, Shows;
    if g.detector[stack] in g.group {
      HashLeadsBack(g, stack);
    }
    AttachedShows(g, live, p, stack, c);
  }

  lemma KeysShown(g: Groups, live: map<Page, Held>)
    requires Shows(g, live)
    ensures live.Keys == g.lastStack.Keys
  {
  }

  lemma ShownAs(g: Groups, live: map<Page, Held>, p: Page)
    requires Shows(g, live) && p in g.lastStack
    ensures HeldAs(g, p, live[p])
  {
  }

  lemma NotedSame(g: Groups, stack: Stack)
    ensures Noted(g, stack).lastStack == g.lastStack && Noted(g, stack).group == g.group
  {
  }

  lemma DetachedSame(g: Groups, p: Page)
    requires CanDetach(g, p)
    ensures Detached(g, p).detector == g.detector && p !in Detached(g, p).lastStack
  {
  }

  /** Taking a page out, with its page cache mark first. */
  lemma TakenOut(g: Groups, live: map<Page, Held>, p: Page)
    requires Inv(g) && Shows(g, live) && p in g.lastStack
    ensures Shows(RemovedFrom(g, p), live - {p})
  {
    hide Inv, Detached, Shows, WithCache, Number;
    Detachable(g, p);
    KeysShown(g, live);
    WithCacheKeeps(g, p, false);
    WithCacheShows(g, live, p, false);
    WithCacheSame(g, p, false);
    var c := if g.lastStack[p].forCache then WithCache(g, p, false) else g;
    Detachable(c, p);
    DetachedShows(g, live, p);
    DetachedShows(WithCache(g, p, false), live[p := live[p].(cached := false)], p);
    assert live[p := live[p].(cached := false)] - {p} == live - {p};
  }

  lemma WithCacheSame(g: Groups, p: Page, b: bool)
    requires p in g.lastStack && g.lastStack[p].hash in g.group
    ensures WithCache(g, p, b).lastStack.Keys == g.lastStack.Keys
    ensures CanDetach(g, p) ==> CanDetach(WithCache(g, p, b), p)
  {
    hide Number;
  }

  lemma MarkedShows(g: Groups, live: map<Page, Held>, p: Page, b: bool)
    requires Inv(g) && Shows(g, live)
    ensures Shows(Marked(g, p, b), Recorded(Record(None, live), Mark(p, b)).live)
  {
    hide Inv, Detached, Shows, WithCache, Number;
    KeysShown(g, live);
    if p in g.lastStack {
      Detachable(g, p);
      ShownAs(g, live, p);
      if g.lastStack[p].forCache != b {
        WithCacheKeeps(g, p, b);
        WithCacheShows(g, live, p, b);
        WithCacheSame(g, p, b);
        DetachedShows(WithCache(g, p, b), live[p := live[p].(cached := b)], p);
        assert live[p := live[p].(cached := b)] - {p} == live - {p};
      }
    }
  }

  /** On every trace the tracker holds exactly the live pages, each under the
      stack that allocated it last. */
  lemma {:induction false} HoldsLive(es: seq<Event>)
    ensures After(es).pid == RecordOf(es).pid && Shows(After(es).groups, RecordOf(es).live)
  {
    if es != [] {
      var n := |es| - 1;
      HoldsLive(es[..n]);
      StepShows(After(es[..n]), RecordOf(es[..n]), es[n]);
    }
  }

  lemma StepShows(t: Tracker, r: Record, e: Event)
    requires Inv(t.groups) && t.pid == r.pid && Shows(t.groups, r.live)
    ensures Step(t, e).pid == Recorded(r, e).pid && Shows(Step(t, e).groups, Recorded(r, e).live)
  {
    hide Inv, Shows, Inserted, RemovedFrom, Marked;
    match e
    case Alloc(p, stack, _) =>
      InsertedShows(t.groups, r.live, p, stack);
    case Free(p, _) =>
      RemovedShows(t.groups, r.live, p);
    case Mark(p, b) =>
      MarkedShows(t.groups, r.live, p, b);
  }

  lemma RemovedShows(g: Groups, live: map<Page, Held>, p: Page)
    requires Inv(g) && Shows(g, live)
    ensures Shows(RemovedFrom(g, p), live - {p})
  {
    hide Inv;
    if p in g.lastStack {
      TakenOut(g, live, p);
    } else {
      assert live - {p} == live;
    }
  }

  lemma ShareOfLive(g: Groups, live: map<Page, Held>, h: nat)
    requires Inv(g) && Shows(g, live) && h in g.group
    ensures Attributed(g, h) == Share(live, HeldFrames(false), StackOf(), g.group[h].stack)
  {
    hide Exact, Number, Order, Total;
    var a, b := InGroup(Frames(), HashIn(), h), InGroup(HeldFrames(false), StackOf(), g.group[h].stack);
    forall p | p in g.lastStack ensures a(p, g.lastStack[p]) == b(p, live[p]) {
      assert HeldAs(g, p, live[p]);
    }
    Same(g.lastStack, a, live, b);
  }

  /** On every trace each counter is the sum of the frames of the live pages
      its stack allocated last, and every live page is counted somewhere. */
  lemma Accounting(es: seq<Event>)
    ensures var g, live := After(es).groups, RecordOf(es).live;
            && (forall h :: h in g.group ==> g.group[h].node == Share(live, HeldFrames(false), StackOf(), g.group[h].stack))
            && (forall p :: p in live ==> exists h :: h in g.group && g.group[h].stack == live[p].stack)
            && (forall h, k :: h in g.group && k in g.group && g.group[h].stack == g.group[k].stack ==> h == k)
  {
    hide After, RecordOf, Share, Order;
    HoldsLive(es);
    var g, live := After(es).groups, RecordOf(es).live;
    forall h | h in g.group ensures g.group[h].node == Share(live, HeldFrames(false), StackOf(), g.group[h].stack) {
      ShareOfLive(g, live, h);
    }
    forall p | p in live ensures exists h :: h in g.group && g.group[h].stack == live[p].stack {
      assert HeldAs(g, p, live[p]);
    }
  }
}
