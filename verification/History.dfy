/** Page histories grouped by call stack, keeping only the last event of a page. */
module Histories {
  import opened Wrappers
  import opened Sums
  import opened Pages
  import opened PageTraces

  /** The last event of a page: whether it is still allocated, and its mark. */
  datatype PageEvent = PageEvent(open: bool, cached: bool)

  type EventLast = Option<PageEvent>

  /** A second allocation leaves the event as it is. */
  function AllocLast(h: EventLast, cached: bool): EventLast {
    if h.Some? && h.value.open then h else Some(PageEvent(true, cached))
  }

  function FreeLast(h: EventLast): EventLast {
    match h
    case Some(e) => Some(e.(open := false))
    case None => Some(PageEvent(false, false))
  }

  function MarkLast(h: EventLast, b: bool): EventLast {
    match h
    case Some(e) => Some(e.(cached := b))
    case None => None
  }

  predicate IsAllocated(h: EventLast) {
    h.Some? && h.value.open
  }

  predicate PageCache(h: EventLast) {
    h.Some? && h.value.cached
  }

  datatype Pasts = Pasts(group: map<Stack, map<Page, EventLast>>, lastStack: map<Page, Stack>)

  const NO_PAST := Pasts(map[], map[])

  /** What both lookups that must not fail find. */
  predicate Tracked(h: Pasts, p: Page) {
    p in h.lastStack && h.lastStack[p] in h.group && p in h.group[h.lastStack[p]]
  }

  function PagesOf(h: Pasts, stack: Stack): map<Page, EventLast> {
    if stack in h.group then h.group[stack] else map[]
  }

  function Put(h: Pasts, stack: Stack, p: Page, e: EventLast): Pasts {
    h.(group := h.group[stack := PagesOf(h, stack)[p := e]], lastStack := h.lastStack[p := stack])
  }

  function Allocated(h: Pasts, p: Page, stack: Stack, cached: bool): Pasts
    requires p in h.lastStack ==> Tracked(h, p)
  {
    if p in h.lastStack then
      var last := h.lastStack[p];
      var e := AllocLast(h.group[last][p], cached);
      if last == stack then Put(h, stack, p, e)
      else Put(h.(group := h.group[last := h.group[last] - {p}]), stack, p, e)
    else
      var e := if p in PagesOf(h, stack) then PagesOf(h, stack)[p] else None;
      Put(h, stack, p, AllocLast(e, cached))
  }

  function Freed(h: Pasts, p: Page): Pasts {
    if p !in h.lastStack then h
    else
      var stack := h.lastStack[p];
      var e := FreeLast(if p in PagesOf(h, stack) then PagesOf(h, stack)[p] else None);
      if IsAllocated(e) then Put(h, stack, p, e)
      else
        var rest := PagesOf(h, stack) - {p};
        h.(group := if rest == map[] then h.group - {stack} else h.group[stack := rest], lastStack := h.lastStack - {p})
  }

  function MarkedIn(h: Pasts, p: Page, b: bool): Pasts
    requires p in h.lastStack ==> Tracked(h, p)
  {
    if p !in h.lastStack then h
    else
      var stack := h.lastStack[p];
      Put(h, stack, p, MarkLast(h.group[stack][p], b))
  }

  // ---------------------------------------------------------------- against the live pages

  ghost predicate HeldIn(h: Pasts, p: Page, held: Held) {
    && Tracked(h, p) && h.lastStack[p] == held.stack
    && h.group[held.stack][p] == Some(PageEvent(true, held.cached))
  }

  /** The histories are exactly those of the live pages, each under the stack
      that allocated it last. */
  ghost predicate Remembers(h: Pasts, live: map<Page, Held>) {
    && live.Keys == h.lastStack.Keys
    && (forall p :: p in live ==> HeldIn(h, p, live[p]))
    && (forall s, p :: s in h.group && p in h.group[s] ==> p in live && live[p].stack == s)
  }

  ghost predicate Valid(h: Pasts) {
    exists live :: Remembers(h, live)
  }

  lemma PutRemembers(h: Pasts, live: map<Page, Held>, stack: Stack, p: Page, c: bool)
    requires live.Keys == h.lastStack.Keys
    requires forall q :: q in live && q != p ==> HeldIn(h, q, live[q])
    requires forall s, q :: s in h.group && q in h.group[s] && (q != p || s != stack) ==> q in live && live[q].stack == s
    requires forall s :: s in h.group && p in h.group[s] ==> s == stack
    ensures Remembers(Put(h, stack, p, Some(PageEvent(true, c))), live[p := Held(stack, c)])
  {
    var h', live' := Put(h, stack, p, Some(PageEvent(true, c))), live[p := Held(stack, c)];
    forall q | q in live' ensures HeldIn(h', q, live'[q]) {
      if q != p {
        assert HeldIn(h, q, live[q]);
      }
    }
  }

  lemma AllocatedRemembers(h: Pasts, live: map<Page, Held>, p: Page, stack: Stack, cached: bool)
    requires Remembers(h, live)
    ensures p in h.lastStack ==> Tracked(h, p)
    ensures Remembers(Allocated(h, p, stack, cached), live[p := Held(stack, if p in live then live[p].cached else cached)])
  {
    hide Put;
    if p in h.lastStack {
      assert HeldIn(h, p, live[p]);
      var last := h.lastStack[p];
      if last == stack {
        PutRemembers(h, live, stack, p, live[p].cached);
      } else {
        var m := h.(group := h.group[last := h.group[last] - {p}]);
        MovedOut(h, live, p);
        PutRemembers(m, live, stack, p, live[p].cached);
      }
    } else {
      PutRemembers(h, live, stack, p, cached);
    }
  }

  /** Without the moved page every other one is where it was. */
  lemma MovedOut(h: Pasts, live: map<Page, Held>, p: Page)
    requires Remembers(h, live) && Tracked(h, p)
    ensures var m := h.(group := h.group[h.lastStack[p] := h.group[h.lastStack[p]] - {p}]);
            && (forall q :: q in live && q != p ==> HeldIn(m, q, live[q]))
            && (forall s, q :: s in m.group && q in m.group[s] ==> q in live && live[q].stack == s && q != p)
  {
    var m := h.(group := h.group[h.lastStack[p] := h.group[h.lastStack[p]] - {p}]);
    assert HeldIn(h, p, live[p]);
    forall q | q in live && q != p ensures HeldIn(m, q, live[q]) {
      assert HeldIn(h, q, live[q]);
    }
  }

  /** After a free a page leaves no history behind, nor its stack an empty group. */
  lemma FreedRemembers(h: Pasts, live: map<Page, Held>, p: Page)
    requires Remembers(h, live)
    ensures Remembers(Freed(h, p), live - {p})
    ensures p in h.lastStack && h.lastStack[p] in Freed(h, p).group ==> Freed(h, p).group[h.lastStack[p]] != map[]
  {
    hide Put, Remembers;
    if p in h.lastStack {
      var stack := Forgotten(h, live, p);
      var rest := h.group[stack] - {p};
      var m := Pasts(h.group[stack := rest], h.lastStack - {p});
      if rest == map[] {
        WithoutEmpty(m, live - {p}, stack);
        assert m.group - {stack} == h.group - {stack};
      }
    } else {
      NothingForgotten(h, live, p);
    }
  }

  lemma NothingForgotten(h: Pasts, live: map<Page, Held>, p: Page)
    requires Remembers(h, live) && p !in h.lastStack
    ensures live - {p} == live
  {
  }

  lemma Forgotten(h: Pasts, live: map<Page, Held>, p: Page) returns (stack: Stack)
    requires Remembers(h, live) && p in h.lastStack
    ensures Tracked(h, p) && stack == h.lastStack[p]
    ensures Remembers(Pasts(h.group[stack := h.group[stack] - {p}], h.lastStack - {p}), live - {p})
  {
    assert HeldIn(h, p, live[p]);
    MovedOut(h, live, p);
    stack := h.lastStack[p];
    var m := h.(group := h.group[stack := h.group[stack] - {p}]);
    var m' := m.(lastStack := h.lastStack - {p});
    forall q | q in live && q != p ensures HeldIn(m', q, live[q]) {
      assert HeldIn(m, q, live[q]);
    }
  }

  lemma WithoutEmpty(h: Pasts, live: map<Page, Held>, stack: Stack)
    requires Remembers(h, live) && stack in h.group && h.group[stack] == map[]
    ensures Remembers(h.(group := h.group - {stack}), live)
  {
    var h' := h.(group := h.group - {stack});
    forall q | q in live ensures HeldIn(h', q, live[q]) {
      assert HeldIn(h, q, live[q]);
    }
  }

  lemma MarkedRemembers(h: Pasts, live: map<Page, Held>, p: Page, b: bool)
    requires Remembers(h, live)
    ensures p in h.lastStack ==> Tracked(h, p)
    ensures Remembers(MarkedIn(h, p, b), if p in live then live[p := live[p].(cached := b)] else live)
  {
    hide Put;
    if p in h.lastStack {
      assert HeldIn(h, p, live[p]);
      PutRemembers(h, live, h.lastStack[p], p, b);
    }
  }

  /** The live pages as this tracker sees them: any process may free, and
      taking a mark away frees nothing. */
  function Noticed(live: map<Page, Held>, e: Event): map<Page, Held> {
    match e
    case Alloc(p, stack, _) => live[p := Held(stack, p in live && live[p].cached)]
    case Free(p, _) => live - {p}
    case Mark(p, b) => if p in live then live[p := live[p].(cached := b)] else live
  }

  function NoticedIn(es: seq<Event>): map<Page, Held> {
    if es == [] then map[] else Noticed(NoticedIn(es[..|es| - 1]), es[|es| - 1])
  }

  function HistoryStep(h: Pasts, e: Event): (h': Pasts)
    requires Valid(h)
    ensures Valid(h')
  {
    ghost var live :| Remembers(h, live);
    StepRemembers(h, live, e);
    match e
    case Alloc(p, stack, _) => Allocated(h, p, stack, false)
    case Free(p, _) => Freed(h, p)
    case Mark(p, b) => MarkedIn(h, p, b)
  }

  lemma StepRemembers(h: Pasts, live: map<Page, Held>, e: Event)
    requires Remembers(h, live)
    ensures e.Alloc? || e.Mark? ==> e.page in h.lastStack ==> Tracked(h, e.page)
    ensures match e
            case Alloc(p, stack, _) => Remembers(Allocated(h, p, stack, false), Noticed(live, e))
            case Free(p, _) => Remembers(Freed(h, p), Noticed(live, e))
            case Mark(p, b) => Remembers(MarkedIn(h, p, b), Noticed(live, e))
  {
    hide Remembers, Allocated, Freed, MarkedIn, Tracked;
    match e
    case Alloc(p, stack, _) => AllocatedRemembers(h, live, p, stack, false);
    case Free(p, _) => FreedRemembers(h, live, p);
    case Mark(p, b) => MarkedRemembers(h, live, p, b);
  }

  function Past(es: seq<Event>): (h: Pasts)
    ensures Valid(h)
  {
    if es == [] then assert Remembers(NO_PAST, map[]); NO_PAST
    else HistoryStep(Past(es[..|es| - 1]), es[|es| - 1])
  }

  /** On every trace the tracker remembers exactly the live pages, and its
      lookups never fail. */
  lemma {:induction false} RemembersLive(es: seq<Event>)
    ensures Remembers(Past(es), NoticedIn(es))
  {
    if es != [] {
      hide Remembers, Valid, Allocated, Freed, MarkedIn, Noticed;
      var n := |es| - 1;
      RemembersLive(es[..n]);
      StepRemembers(Past(es[..n]), NoticedIn(es[..n]), es[n]);
    }
  }

  // ---------------------------------------------------------------- the report

  function OpenNumber(p: Page, e: EventLast): nat {
    if IsAllocated(e) then Number(p) else 0
  }

  function CachedOpenNumber(p: Page, e: EventLast): nat {
    if IsAllocated(e) && PageCache(e) then Number(p) else 0
  }

  function OpenFrames(cache: bool): (Page, EventLast) -> nat {
    (p, e) => if cache then CachedOpenNumber(p, e) else OpenNumber(p, e)
  }

  ghost function PerStack(cache: bool): (Stack, map<Page, EventLast>) -> nat {
    (s, pages) => Total(pages, OpenFrames(cache))
  }

  lemma StackShare(h: Pasts, live: map<Page, Held>, s: Stack, cache: bool)
    requires Remembers(h, live) && s in h.group
    ensures Total(h.group[s], OpenFrames(cache)) == Share(live, HeldFrames(cache), StackOf(), s)
  {
    hide Total, Number;
    var w := InGroup(HeldFrames(cache), StackOf(), s);
    var keys := h.group[s].Keys;
    Split(live, w, keys);
    NotElsewhere(h, live, s);
    Zero(live - keys, w);
    var here := map p | p in live && p in keys :: live[p];
    SameHere(h, live, s, cache);
    Same(here, w, h.group[s], OpenFrames(cache));
  }

  lemma NotElsewhere(h: Pasts, live: map<Page, Held>, s: Stack)
    requires Remembers(h, live) && s in h.group
    ensures forall p :: p in live && p !in h.group[s] ==> live[p].stack != s
    ensures forall p :: p in h.group[s] ==> p in live
  {
    forall p | p in live && p !in h.group[s] ensures live[p].stack != s {
      assert HeldIn(h, p, live[p]);
    }
  }

  lemma SameHere(h: Pasts, live: map<Page, Held>, s: Stack, cache: bool)
    requires Remembers(h, live) && s in h.group
    ensures forall p :: p in h.group[s] ==>
              p in live &&
              InGroup(HeldFrames(cache), StackOf(), s)(p, live[p]) == OpenFrames(cache)(p, h.group[s][p])
  {
    hide Number;
    forall p | p in h.group[s]
      ensures p in live && InGroup(HeldFrames(cache), StackOf(), s)(p, live[p]) == OpenFrames(cache)(p, h.group[s][p])
    {
      assert HeldIn(h, p, live[p]);
    }
  }

  /** What the report adds up is the live pages. */
  lemma ReportIsLive(h: Pasts, live: map<Page, Held>, cache: bool)
    requires Remembers(h, live)
    ensures Total(h.group, PerStack(cache)) == Total(live, HeldFrames(cache))
  {
    hide Total, Number;
    var shares := Shares(live, HeldFrames(cache), StackOf(), h.group.Keys);
    forall s | s in h.group ensures PerStack(cache)(s, h.group[s]) == shares[s] {
      StackShare(h, live, s, cache);
    }
    Same(h.group, PerStack(cache), shares, Itself());
    forall p | p in live ensures StackOf()(p, live[p]) in h.group.Keys {
      assert HeldIn(h, p, live[p]);
    }
    SharesAddUp(live, HeldFrames(cache), StackOf(), h.group.Keys);
  }

  /** The pages of one stack, in KiB. */
  method StackReport(pages: map<Page, EventLast>) returns (value: nat, cache: nat)
    ensures value == 4 * Total(pages, OpenFrames(false)) && cache == 4 * Total(pages, OpenFrames(true))
  {
    hide Total, Order, TwoTo;
    value, cache := 0, 0;
    var left := pages;
    while left != map[]
      invariant value + 4 * Total(left, OpenFrames(false)) == 4 * Total(pages, OpenFrames(false))
      invariant cache + 4 * Total(left, OpenFrames(true)) == 4 * Total(pages, OpenFrames(true))
      decreases left.Keys
    {
      var p :| p in left;
      Pick(left, OpenFrames(false), p);
      Pick(left, OpenFrames(true), p);
      if IsAllocated(left[p]) {
        value := value + SizeKib(p);
        if PageCache(left[p]) {
          cache := cache + SizeKib(p);
        }
      }
      left := left - {p};
    }
    Zero(left, OpenFrames(false));
    Zero(left, OpenFrames(true));
  }

  // ---------------------------------------------------------------- the object

  class History {
    var group: map<Stack, map<Page, EventLast>>
    var lastStack: map<Page, Stack>

    ghost function State(): Pasts
      reads this
    {
      Pasts(group, lastStack)
    }

    constructor ()
      ensures State() == Past([])
    {
      group, lastStack := map[], map[];
    }

    method TrackAlloc(page: Page, stack: Stack, ghost pid: nat)
      requires Valid(State())
      modifies this
      ensures State() == HistoryStep(old(State()), Alloc(page, stack, pid))
      ensures Valid(State())
    {
      hide Valid, Remembers;
      ghost var live := Lookups(State(), Alloc(page, stack, pid));
      if page in lastStack {
        var last := lastStack[page];
        var history := AllocLast(group[last][page], false);
        if last == stack {
          group := group[last := group[last][page := history]];
          assert lastStack[page := stack] == lastStack;
        } else {
          group := group[last := group[last] - {page}];
          var pages := if stack in group then group[stack] else map[];
          group := group[stack := pages[page := history]];
          lastStack := lastStack[page := stack];
        }
      } else {
        var pages := if stack in group then group[stack] else map[];
        var history := if page in pages then pages[page] else None;
        group := group[stack := pages[page := AllocLast(history, false)]];
        lastStack := lastStack[page := stack];
      }
    }

    method TrackFree(page: Page, ghost pid: nat)
      requires Valid(State())
      modifies this
      ensures State() == HistoryStep(old(State()), Free(page, pid))
      ensures Valid(State())
    {
      hide Valid, Remembers;
      if page in lastStack {
        var stack := lastStack[page];
        var pages := if stack in group then group[stack] else map[];
        var history := FreeLast(if page in pages then pages[page] else None);
        group := group[stack := pages[page := history]];
        if !IsAllocated(history) {
          group := group[stack := group[stack] - {page}];
          assert group[stack] == pages - {page};
          if group[stack] == map[] {
            group := group - {stack};
            assert group == old(group) - {stack};
          }
          lastStack := lastStack - {page};
        }
      }
    }

    method MarkPageCache(page: Page, b: bool)
      requires Valid(State())
      modifies this
      ensures State() == HistoryStep(old(State()), Mark(page, b))
      ensures Valid(State())
    {
      hide Valid, Remembers;
      ghost var live := Lookups(State(), Mark(page, b));
      if page in lastStack {
        var stack := lastStack[page];
        group := group[stack := group[stack][page := MarkLast(group[stack][page], b)]];
        assert lastStack[page := stack] == lastStack;
      }
    }

    /** `short_report`, in KiB: four times the frames of the live pages. */
    method ShortReport(ghost live: map<Page, Held>) returns (value: nat, cache: nat)
      requires Remembers(State(), live)
      ensures value == 4 * Total(live, HeldFrames(false)) && cache == 4 * Total(live, HeldFrames(true))
    {
      hide Total, Remembers;
      value, cache := 0, 0;
      var left := group;
      while left != map[]
        invariant value + 4 * Total(left, PerStack(false)) == 4 * Total(group, PerStack(false))
        invariant cache + 4 * Total(left, PerStack(true)) == 4 * Total(group, PerStack(true))
        decreases left.Keys
      {
        var s :| s in left;
        Pick(left, PerStack(false), s);
        Pick(left, PerStack(true), s);
        var v, c := StackReport(left[s]);
        value, cache := value + v, cache + c;
        left := left - {s};
      }
      Zero(left, PerStack(false));
      Zero(left, PerStack(true));
      ReportIsLive(State(), live, false);
      ReportIsLive(State(), live, true);
    }
  }

  lemma Lookups(h: Pasts, e: Event) returns (live: map<Page, Held>)
    requires Valid(h)
    ensures Remembers(h, live) && (e.Alloc? || e.Mark? ==> e.page in h.lastStack ==> Tracked(h, e.page))
  {
    live :| Remembers(h, live);
    StepRemembers(h, live, e);
  }
}
