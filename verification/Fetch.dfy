/** Filtered queries: prefix scans of the secondary indexes, intersected,
    against a linear scan of the primary table. */
module Fetching {
  import opened Wrappers
  import opened Bytes
  import opened Common
  import opened IndexKeys
  import opened Store
  import opened StoreLaws
  import opened SortedIntersection
  import opened IndexScans

  /** The filters of `/v3/messages`, parsed; time filters are not modelled. */
  datatype Filter = Filter(
    limit: Option<nat>,
    forward: bool,
    cursor: Option<u64>,
    types: Option<seq<MessageType>>,
    incoming: Option<bool>,
    sourceType: Option<Initiator>,
    remoteAddr: Option<SocketAddr>)

  predicate Unfiltered(f: Filter) {
    f.types.None? && f.incoming.None? && f.sourceType.None? && f.remoteAddr.None?
  }

  /** The same endpoint, IPv4 taken as IPv6. */
  predicate SameEndpoint(a: SocketAddr, b: SocketAddr) {
    Octets(a) == Octets(b) && a.port == b.port
  }

  /** Two IPv4 endpoints are the same exactly when all octets and the port agree;
      an IPv6 endpoint is the same as an IPv4 one exactly when it is
      `::ffff:a.b.c.d` with its port. */
  lemma SameEndpointIs(x: SocketAddr, y: SocketAddr)
    ensures x.V4? && y.V4? ==> (SameEndpoint(x, y) <==> x == y)
    ensures x.V6? && y.V6? ==> (SameEndpoint(x, y) <==> x == y)
    ensures x.V6? && y.V4? ==>
              (SameEndpoint(x, y) <==> x == V6(seq(10, _ => 0) + [0xff, 0xff, y.a, y.b, y.c, y.d], y.port))
  {
    if x.V4? && y.V4? {
      assert Octets(x)[12] == x.a && Octets(x)[13] == x.b && Octets(x)[14] == x.c && Octets(x)[15] == x.d;
      assert Octets(y)[12] == y.a && Octets(y)[13] == y.b && Octets(y)[14] == y.c && Octets(y)[15] == y.d;
    }
    if y.V4? {
      assert Octets(y) == seq(10, _ => 0) + [0xff, 0xff, y.a, y.b, y.c, y.d];
    }
  }

  predicate Matches(f: Filter, m: Message) {
    && (f.types.Some? ==> m.ty in f.types.value)
    && (f.incoming.Some? ==> m.sender == SenderOf(f.incoming.value))
    && (f.sourceType.Some? ==> m.initiator == f.sourceType.value)
    && (f.remoteAddr.Some? ==> SameEndpoint(m.remoteAddr, f.remoteAddr.value))
  }

  /** The cursor when none is given. */
  function CursorOf(f: Filter): u64 {
    match f.cursor
    case Some(c) => c
    case None => if f.forward then 0 else TWO64 - 1
  }

  /** Where the scans start: the primary table compares whole ids, the indexes
      only their low 56 or 48 bits. */
  predicate Reached(f: Filter, id: nat) {
    if Unfiltered(f) then f.cursor.Some? ==> Within(f.forward, f.cursor.value, id)
    else
      && (f.types.Some? || f.incoming.Some? || f.sourceType.Some? ==> Within(f.forward, CursorOf(f) % TWO56, id))
      && (f.remoteAddr.Some? ==> Within(f.forward, CursorOf(f) % TWO48, id))
  }

  // ---------------------------------------------------------------- merging type scans

  /** The list whose head is the greatest. */
  function Greatest(lists: seq<seq<nat>>): (r: Option<nat>)
    ensures r.Some? ==> r.value < |lists| && lists[r.value] != []
  {
    if lists == [] then None
    else
      var n := |lists| - 1;
      var best := Greatest(lists[..n]);
      if lists[n] == [] then best
      else if best.None? || lists[n][0] > lists[best.value][0] then Some(n)
      else best
  }

  lemma {:induction false} GreatestIs(lists: seq<seq<nat>>)
    ensures match Greatest(lists)
            case None => forall k :: 0 <= k < |lists| ==> lists[k] == []
            case Some(b) => forall k :: 0 <= k < |lists| && lists[k] != [] ==> lists[k][0] <= lists[b][0]
    decreases |lists|
  {
    if lists != [] {
      GreatestIs(lists[..|lists| - 1]);
    }
  }

  /** `kmerge_by(|x, y| x > y)`: always the greatest head first, whatever the
      direction of iteration. */
  function KMerge(lists: seq<seq<nat>>): seq<nat>
    decreases Left(lists)
  {
    match Greatest(lists)
    case None => []
    case Some(b) =>
      LeftLess(lists, lists[b := lists[b][1..]], b);
      [lists[b][0]] + KMerge(lists[b := lists[b][1..]])
  }

  ghost predicate Disjoint(lists: seq<seq<nat>>) {
    forall x, j, k :: 0 <= j < |lists| && 0 <= k < |lists| && x in lists[j] && x in lists[k] ==> j == k
  }

  predicate InSome(x: nat, lists: seq<seq<nat>>) {
    exists k :: 0 <= k < |lists| && x in lists[k]
  }

  /** Taking the head off one list. */
  lemma WithoutHead(lists: seq<seq<nat>>, b: nat, x: nat)
    requires b < |lists| && lists[b] != []
    ensures InSome(x, lists) <==> x == lists[b][0] || InSome(x, lists[b := lists[b][1..]])
  {
    var rest := lists[b := lists[b][1..]];
    if InSome(x, lists) {
      var k :| 0 <= k < |lists| && x in lists[k];
      assert x == lists[b][0] || x in rest[k];
    }
    if InSome(x, rest) {
      var k :| 0 <= k < |rest| && x in rest[k];
      assert x in lists[k];
    }
    assert lists[b][0] in lists[b];
  }

  /** Merging keeps exactly the elements. */
  lemma {:induction false} KMergeHas(lists: seq<seq<nat>>)
    ensures forall x :: x in KMerge(lists) <==> InSome(x, lists)
    decreases Left(lists)
  {
    GreatestIs(lists);
    match Greatest(lists)
    case None =>
    case Some(b) =>
      var h, rest := lists[b][0], lists[b := lists[b][1..]];
      LeftLess(lists, rest, b);
      KMergeHas(rest);
      forall x ensures InSome(x, lists) <==> x == h || InSome(x, rest) {
        WithoutHead(lists, b, x);
      }
  }

  /** Merging descending lists without a common element gives a descending list. */
  lemma {:induction false} KMergeDescends(lists: seq<seq<nat>>)
    requires AllMono(false, lists) && Disjoint(lists)
    ensures Mono(false, KMerge(lists))
    decreases Left(lists)
  {
    GreatestIs(lists);
    match Greatest(lists)
    case None =>
    case Some(b) =>
      var h, rest := lists[b][0], lists[b := lists[b][1..]];
      LeftLess(lists, rest, b);
      RestMono(lists, b);
      KMergeDescends(rest);
      KMergeHas(rest);
      forall x | x in KMerge(rest) ensures x < h {
        SmallerLeft(lists, b, x);
      }
      MonoPush(h, KMerge(rest));
  }

  lemma MonoPush(h: nat, s: seq<nat>)
    requires Mono(false, s) && forall x :: x in s ==> x < h
    ensures Mono(false, [h] + s)
  {
    forall i, j | 0 <= i < j < |[h] + s| ensures Before(false, ([h] + s)[i], ([h] + s)[j]) {
      assert s[j - 1] in s;
    }
  }

  lemma RestMono(lists: seq<seq<nat>>, b: nat)
    requires AllMono(false, lists) && Disjoint(lists) && b < |lists| && lists[b] != []
    ensures AllMono(false, lists[b := lists[b][1..]]) && Disjoint(lists[b := lists[b][1..]])
  {
    var rest := lists[b := lists[b][1..]];
    assert Mono(false, lists[b]);
    forall x, j, k | 0 <= j < |rest| && 0 <= k < |rest| && x in rest[j] && x in rest[k] ensures j == k {
      assert x in lists[j] && x in lists[k];
    }
  }

  lemma SmallerLeft(lists: seq<seq<nat>>, b: nat, x: nat)
    requires AllMono(false, lists) && Disjoint(lists) && b < |lists| && lists[b] != []
    requires forall k :: 0 <= k < |lists| && lists[k] != [] ==> lists[k][0] <= lists[b][0]
    requires InSome(x, lists[b := lists[b][1..]])
    ensures x < lists[b][0]
  {
    var rest := lists[b := lists[b][1..]];
    var k :| 0 <= k < |rest| && x in rest[k];
    assert Mono(false, lists[k]) && x in lists[k] && lists[b][0] in lists[b];
    var i :| 0 <= i < |lists[k]| && lists[k][i] == x;
    if k == b {
      var j :| 0 <= j < |rest[k]| && rest[k][j] == x;
      assert lists[k][j + 1] == x;
    }
  }

  predicate OneOccupied(lists: seq<seq<nat>>) {
    forall j, k :: 0 <= j < |lists| && 0 <= k < |lists| && lists[j] != [] && lists[k] != [] ==> j == k
  }

  lemma {:induction false} KMergeOne(lists: seq<seq<nat>>, b: nat)
    requires OneOccupied(lists) && b < |lists| && lists[b] != []
    ensures KMerge(lists) == lists[b]
    decreases |lists[b]|
  {
    GreatestIs(lists);
    assert Greatest(lists) == Some(b);
    var rest := lists[b := lists[b][1..]];
    if |lists[b]| > 1 {
      KMergeOne(rest, b);
    } else {
      GreatestIs(rest);
      assert forall k :: 0 <= k < |rest| ==> rest[k] == [];
      assert KMerge(rest) == [];
    }
  }

  predicate HeadNotLeast(s: seq<nat>) {
    s != [] && exists x :: x in s && x < s[0]
  }

  /** Merging ascending lists keeps the order exactly when all but one are
      empty: the greatest head comes first, and anything left elsewhere is
      smaller. */
  lemma ForwardMerge(lists: seq<seq<nat>>)
    requires AllMono(true, lists) && Disjoint(lists)
    ensures Mono(true, KMerge(lists)) <==> OneOccupied(lists)
    ensures !OneOccupied(lists) ==> HeadNotLeast(KMerge(lists))
  {
    hide KMerge, Disjoint;
    GreatestIs(lists);
    match Greatest(lists)
    case None =>
      NothingMerged(lists);
    case Some(b) =>
      if OneOccupied(lists) {
        KMergeOne(lists, b);
        assert Mono(true, lists[b]);
      } else {
        var j, k :| 0 <= j < |lists| && 0 <= k < |lists| && lists[j] != [] && lists[k] != [] && j != k;
        TwoOccupied(lists, b, if j == b then k else j);
      }
  }

  lemma NothingMerged(lists: seq<seq<nat>>)
    requires Greatest(lists).None?
    ensures KMerge(lists) == []
  {
  }

  lemma KMergeStep(lists: seq<seq<nat>>, b: nat)
    requires Greatest(lists) == Some(b)
    ensures KMerge(lists) == [lists[b][0]] + KMerge(lists[b := lists[b][1..]])
  {
  }

  lemma TwoOccupied(lists: seq<seq<nat>>, b: nat, o: nat)
    requires Disjoint(lists) && Greatest(lists) == Some(b) && o < |lists| && o != b && lists[o] != []
    ensures HeadNotLeast(KMerge(lists)) && !Mono(true, KMerge(lists))
  {
    hide KMerge, Greatest, Disjoint, InSome;
    GreatestIs(lists);
    var h, x, rest := lists[b][0], lists[o][0], lists[b := lists[b][1..]];
    DistinctHeads(lists, b, o);
    KMergeStep(lists, b);
    KMergeHas(rest);
    HeadIn(rest, o);
    FirstGreater(h, x, KMerge(rest));
  }

  lemma DistinctHeads(lists: seq<seq<nat>>, b: nat, o: nat)
    requires Disjoint(lists) && b < |lists| && o < |lists| && b != o && lists[b] != [] && lists[o] != []
    ensures lists[b][0] != lists[o][0]
  {
    assert lists[b][0] in lists[b] && lists[o][0] in lists[o];
  }

  lemma HeadIn(lists: seq<seq<nat>>, o: nat)
    requires o < |lists| && lists[o] != []
    ensures InSome(lists[o][0], lists)
  {
    assert lists[o][0] in lists[o];
  }

  lemma FirstGreater(h: nat, x: nat, s: seq<nat>)
    requires x in s && x < h
    ensures HeadNotLeast([h] + s) && !Mono(true, [h] + s)
  {
    var i :| 0 <= i < |s| && s[i] == x;
    assert ([h] + s)[0] == h && ([h] + s)[i + 1] == x;
    assert x in [h] + s;
  }

  // ---------------------------------------------------------------- one scan per filter

  function TypePrefix(m: Message): Key { [TypeCode(m.ty)] }
  function SenderPrefix(m: Message): Key { [BoolTag(m.sender.Remote?)] }
  function InitiatorPrefix(m: Message): Key { [BoolTag(m.initiator.InitiatorRemote?)] }
  function EndpointPrefix(m: Message): Key { AddrPrefix(m.remoteAddr) }

  /** The index of some prefix holds exactly the rows of the messages. */
  ghost predicate Indexes(keys: set<Key>, ms: map<nat, Message>, prefix: Message -> Key, width: nat) {
    keys == (set i | i in ms :: RowKey(prefix(ms[i]), i, width))
  }

  lemma ImageIndexes(ms: map<nat, Message>, row: (Message, nat) -> Key, prefix: Message -> Key, width: nat)
    requires forall m, i :: row(m, i) == RowKey(prefix(m), i, width)
    ensures Indexes(Image(ms, row), ms, prefix, width)
  {
    forall k | k in Image(ms, row) ensures k in (set i | i in ms :: RowKey(prefix(ms[i]), i, width)) {
      var i :| i in ms && row(ms[i], i) == k;
      assert k == RowKey(prefix(ms[i]), i, width);
    }
    forall k | k in (set i | i in ms :: RowKey(prefix(ms[i]), i, width)) ensures k in Image(ms, row) {
      var i :| i in ms && k == RowKey(prefix(ms[i]), i, width);
      assert k == row(ms[i], i);
    }
  }

  lemma TablesIndex(t: Tables)
    requires Agree(t)
    ensures Indexes(t.byType, t.messages, TypePrefix, 7)
    ensures Indexes(t.bySender, t.messages, SenderPrefix, 7)
    ensures Indexes(t.byInitiator, t.messages, InitiatorPrefix, 7)
    ensures Indexes(t.byAddr, t.messages, EndpointPrefix, 6)
  {
    hide Indexes, Image, TagKey, AddrKey;
    forall m, i
      ensures TypeRow(m, i) == RowKey(TypePrefix(m), i, 7)
      ensures SenderRow(m, i) == RowKey(SenderPrefix(m), i, 7)
      ensures InitiatorRow(m, i) == RowKey(InitiatorPrefix(m), i, 7)
      ensures AddrRow(m, i) == RowKey(EndpointPrefix(m), i, 6)
    {
      TagKeyShape(TypeCode(m.ty), i);
      TagKeyShape(BoolTag(m.sender.Remote?), i);
      TagKeyShape(BoolTag(m.initiator.InitiatorRemote?), i);
      AddrKeyShape(m.remoteAddr, i);
    }
    ImageIndexes(t.messages, TypeRow, TypePrefix, 7);
    ImageIndexes(t.messages, SenderRow, SenderPrefix, 7);
    ImageIndexes(t.messages, InitiatorRow, InitiatorPrefix, 7);
    ImageIndexes(t.messages, AddrRow, EndpointPrefix, 6);
  }

  /** Decoding an eight-byte key reads the id behind the tag byte. */
  lemma TagIndexIsId(k: Key)
    requires |k| == 8
    ensures TagIndex(k) == Some(IdOf(k, 7))
  {
    assert k[0 := 0] == [0] + k[1..];
    BeValLeadingZero(k[1..]);
  }

  lemma AddrIndexIsId(k: Key)
    requires |k| == 24
    ensures AddrIndex(k) == Some(IdOf(k, 6))
  {
    assert k[16..][0 := 0][1 := 0] == [0] + ([0] + k[18..]);
    BeValLeadingZero(k[18..]);
    BeValLeadingZero([0] + k[18..]);
  }

  /** One of the three one-byte-tag indexes. */
  method ScanTag(keys: set<Key>, tag: byte, cursor: nat, forward: bool, ghost ms: map<nat, Message>,
                 ghost prefix: Message -> Key)
    returns (ids: seq<nat>)
    requires Indexes(keys, ms, prefix, 7) && (forall i :: i in ms ==> i < TWO56) && (forall m :: |prefix(m)| == 1)
    ensures IsIdScan(ms, prefix, [tag], cursor % TWO56, forward, ids)
  {
    hide IsScan, IsIdScan, IdOf;
    var start := TagKey(tag, cursor);
    RowsAreLong(keys, ms, prefix, 1, 7);
    var ks := Scan(keys, start, forward, 1);
    ScanWithin(keys, start, forward, 1, ks);
    ids := [];
    for n := 0 to |ks|
      invariant |ids| == n && forall x :: 0 <= x < n ==> ids[x] == IdOf(ks[x], 7)
    {
      assert ks[n] in ks && ks[n] in keys;
      TagIndexIsId(ks[n]);
      var id := TagIndex(ks[n]);
      ids := ids + [id.value];
    }
    assert ids == Ids(ks, 7);
    assert Pow256(7) == TWO56 by {
      PowFacts();
    }
    assert start == RowKey([tag], cursor % TWO56, 7) by {
      TagKeyShape(tag, cursor);
      CursorKey([tag], cursor, 7);
    }
    ScanIsIdScan(ms, prefix, [tag], cursor % TWO56, forward, 1, 7, keys, ks);
  }

  lemma RowsAreLong(keys: set<Key>, ms: map<nat, Message>, prefix: Message -> Key, len: nat, width: nat)
    requires Indexes(keys, ms, prefix, width) && forall m :: |prefix(m)| == len
    ensures forall k :: k in keys ==> |k| == len + width
  {
    forall k | k in keys ensures |k| == len + width {
      var i :| i in ms && k == RowKey(prefix(ms[i]), i, width);
    }
  }

  lemma ScanWithin(keys: set<Key>, start: Key, forward: bool, len: nat, ks: seq<Key>)
    requires IsScan(keys, start, forward, len, ks)
    ensures forall k :: k in ks ==> k in keys
  {
  }

  lemma EndpointWidth()
    ensures forall m :: |EndpointPrefix(m)| == 18
    ensures forall a :: |AddrPrefix(a)| == 18
  {
  }

  /** The endpoint index. */
  method ScanAddr(keys: set<Key>, addr: SocketAddr, cursor: nat, forward: bool, ghost ms: map<nat, Message>)
    returns (ids: seq<nat>)
    requires Indexes(keys, ms, EndpointPrefix, 6) && (forall i :: i in ms ==> i < TWO48)
    ensures IsIdScan(ms, EndpointPrefix, AddrPrefix(addr), cursor % TWO48, forward, ids)
  {
    hide IsScan, IsIdScan, IdOf, AddrKey, AddrPrefix, AddrIndex;
    var start := AddrKey(addr, cursor);
    assert |start| == 24 by {
      AddrKeyShape(addr, cursor);
    }
    EndpointWidth();
    RowsAreLong(keys, ms, EndpointPrefix, 18, 6);
    var ks := Scan(keys, start, forward, 18);
    ScanWithin(keys, start, forward, 18, ks);
    ids := [];
    for n := 0 to |ks|
      invariant |ids| == n && forall x :: 0 <= x < n ==> ids[x] == IdOf(ks[x], 6)
    {
      assert ks[n] in ks && ks[n] in keys;
      AddrIndexIsId(ks[n]);
      var id := AddrIndex(ks[n]);
      ids := ids + [id.value];
    }
    assert ids == Ids(ks, 6);
    assert Pow256(6) == TWO48 by {
      PowFacts();
    }
    assert start == RowKey(AddrPrefix(addr), cursor % TWO48, 6) by {
      AddrKeyShape(addr, cursor);
      CursorKey(AddrPrefix(addr), cursor, 6);
    }
    ScanIsIdScan(ms, EndpointPrefix, AddrPrefix(addr), cursor % TWO48, forward, 18, 6, keys, ks);
  }

  // ---------------------------------------------------------------- the filters as iterators

  /** One filter of a query. */
  datatype Criterion =
    | ByType(types: seq<MessageType>)
    | BySender(sender: Sender)
    | ByInitiator(initiator: Initiator)
    | ByAddr(addr: SocketAddr)

  predicate Meets(c: Criterion, m: Message) {
    match c
    case ByType(types) => m.ty in types
    case BySender(sender) => m.sender == sender
    case ByInitiator(initiator) => m.initiator == initiator
    case ByAddr(addr) => SameEndpoint(m.remoteAddr, addr)
  }

  /** The cursor as the index of a filter sees it. */
  function CutOff(c: Criterion, cursor: nat): nat {
    if c.ByAddr? then cursor % TWO48 else cursor % TWO56
  }

  function Criteria(f: Filter): seq<Criterion> {
    (if f.types.Some? then [ByType(f.types.value)] else [])
    + (if f.incoming.Some? then [BySender(SenderOf(f.incoming.value))] else [])
    + (if f.sourceType.Some? then [ByInitiator(f.sourceType.value)] else [])
    + (if f.remoteAddr.Some? then [ByAddr(f.remoteAddr.value)] else [])
  }

  predicate Distinct(types: seq<MessageType>) {
    forall i, j :: 0 <= i < j < |types| ==> types[i] != types[j]
  }

  /** Types can be merged into one sorted iterator: going forward, at most one
      of them occurs at or behind the cursor. */
  ghost predicate Mergeable(ms: map<nat, Message>, forward: bool, cursor: nat, types: seq<MessageType>) {
    forward ==>
      forall x, y | x in ms && y in ms && ms[x].ty in types && ms[y].ty in types &&
                    Within(true, cursor % TWO56, x) && Within(true, cursor % TWO56, y) :: ms[x].ty == ms[y].ty
  }

  ghost predicate Sorted(ms: map<nat, Message>, forward: bool, cursor: nat, c: Criterion) {
    c.ByType? ==> Distinct(c.types) && Mergeable(ms, forward, cursor, c.types)
  }

  ghost predicate WellOrdered(f: Filter, ms: map<nat, Message>) {
    f.types.Some? ==> Distinct(f.types.value) && Mergeable(ms, f.forward, CursorOf(f), f.types.value)
  }

  /** The iterator of a filter: the matching ids at or behind the cursor, in order. */
  ghost predicate Serves(ms: map<nat, Message>, forward: bool, cursor: nat, c: Criterion, ids: seq<nat>) {
    && Mono(forward, ids)
    && forall i :: i in ids <==> i in ms && Meets(c, ms[i]) && Within(forward, CutOff(c, cursor), i)
  }

  /** The scans of distinct types. */
  lemma TypeScans(ms: map<nat, Message>, types: seq<MessageType>, cursor: nat, forward: bool, lists: seq<seq<nat>>)
    requires |lists| == |types| && Distinct(types)
    requires forall k :: 0 <= k < |types| ==>
               IsIdScan(ms, TypePrefix, [TypeCode(types[k])], cursor % TWO56, forward, lists[k])
    ensures Disjoint(lists) && AllMono(forward, lists)
    ensures forall x :: InSome(x, lists) <==> x in ms && ms[x].ty in types && Within(forward, cursor % TWO56, x)
    ensures forward ==> (OneOccupied(lists) <==> Mergeable(ms, forward, cursor, types))
  {
    hide TypeCode, Within;
    var c := cursor % TWO56;
    forall x, k | 0 <= k < |lists|
      ensures x in lists[k] <==> x in ms && ms[x].ty == types[k] && Within(forward, c, x)
    {
      assert IsIdScan(ms, TypePrefix, [TypeCode(types[k])], c, forward, lists[k]);
      if x in ms {
        TypeCodeInjective(ms[x].ty, types[k]);
        assert TypePrefix(ms[x]) == [TypeCode(types[k])] <==> ms[x].ty == types[k];
      }
    }
    forall x | x in ms && ms[x].ty in types && Within(forward, c, x) ensures InSome(x, lists) {
      var k :| 0 <= k < |types| && types[k] == ms[x].ty;
      assert x in lists[k];
    }
    if forward {
      OccupiedTypes(ms, types, cursor, lists);
    }
  }

  lemma OccupiedTypes(ms: map<nat, Message>, types: seq<MessageType>, cursor: nat, lists: seq<seq<nat>>)
    requires |lists| == |types| && Distinct(types)
    requires forall x, k | 0 <= k < |lists| ::
               x in lists[k] <==> x in ms && ms[x].ty == types[k] && Within(true, cursor % TWO56, x)
    ensures OneOccupied(lists) <==> Mergeable(ms, true, cursor, types)
  {
    hide Within;
    if OneOccupied(lists) {
      forall x, y | x in ms && y in ms && ms[x].ty in types && ms[y].ty in types &&
                    Within(true, cursor % TWO56, x) && Within(true, cursor % TWO56, y)
        ensures ms[x].ty == ms[y].ty
      {
        var j :| 0 <= j < |types| && types[j] == ms[x].ty;
        var k :| 0 <= k < |types| && types[k] == ms[y].ty;
        assert x in lists[j] && y in lists[k];
      }
    } else {
      var j, k :| 0 <= j < |lists| && 0 <= k < |lists| && lists[j] != [] && lists[k] != [] && j != k;
      var x, y := lists[j][0], lists[k][0];
      assert x in lists[j] && y in lists[k];
      assert ms[x].ty == types[j] && ms[y].ty == types[k];
    }
  }

  /** One scan per type, merged: the matching ids at or behind the cursor, in
      order if and only if the types can be merged, and otherwise not starting
      with the least. */
  ghost predicate MergedTypes(ms: map<nat, Message>, forward: bool, cursor: nat, types: seq<MessageType>, ids: seq<nat>) {
    && (forall i :: i in ids <==>
          i in ms && Meets(ByType(types), ms[i]) && Within(forward, CutOff(ByType(types), cursor), i))
    && (Serves(ms, forward, cursor, ByType(types), ids) <==> Mergeable(ms, forward, cursor, types))
    && (!Mergeable(ms, forward, cursor, types) ==> HeadNotLeast(ids))
  }

  method ScanTypes(keys: set<Key>, types: seq<MessageType>, cursor: nat, forward: bool, ghost ms: map<nat, Message>)
    returns (ids: seq<nat>)
    requires Indexes(keys, ms, TypePrefix, 7) && (forall i :: i in ms ==> i < TWO56)
    ensures Distinct(types) ==> MergedTypes(ms, forward, cursor, types, ids)
  {
    hide IsIdScan, TypeCode, Indexes, KMerge, MergedTypes;
    var lists: seq<seq<nat>> := [];
    for n := 0 to |types|
      invariant |lists| == n
      invariant forall k :: 0 <= k < n ==>
                  IsIdScan(ms, TypePrefix, [TypeCode(types[k])], cursor % TWO56, forward, lists[k])
    {
      var it := ScanTag(keys, TypeCode(types[n]), cursor, forward, ms, TypePrefix);
      lists := lists + [it];
    }
    ids := KMerge(lists);
    if Distinct(types) {
      TypesMerged(ms, types, cursor, forward, lists);
    }
  }

  lemma TypesMerged(ms: map<nat, Message>, types: seq<MessageType>, cursor: nat, forward: bool, lists: seq<seq<nat>>)
    requires |lists| == |types| && Distinct(types)
    requires forall k :: 0 <= k < |types| ==>
               IsIdScan(ms, TypePrefix, [TypeCode(types[k])], cursor % TWO56, forward, lists[k])
    ensures MergedTypes(ms, forward, cursor, types, KMerge(lists))
  {
    hide KMerge, HeadNotLeast, TypeCode, Disjoint, InSome, OneOccupied, Within, Mono;
    TypeScans(ms, types, cursor, forward, lists);
    KMergeHas(lists);
    if forward {
      ForwardMerge(lists);
    } else {
      KMergeDescends(lists);
    }
  }

  /** A scan by a one-byte tag or by an endpoint serves its filter. */
  lemma ScanServes(ms: map<nat, Message>, prefix: Message -> Key, wanted: Key, c: Criterion, cursor: nat, forward: bool,
                   ids: seq<nat>)
    requires IsIdScan(ms, prefix, wanted, CutOff(c, cursor), forward, ids)
    requires forall m :: prefix(m) == wanted <==> Meets(c, m)
    ensures Serves(ms, forward, cursor, c, ids)
  {
  }

  predicate TypesOnly(f: Filter) {
    f.types.Some? && f.incoming.None? && f.sourceType.None? && f.remoteAddr.None?
  }

  /** The iterators of a query, one per filter given. */
  method Iterators(db: Db, f: Filter) returns (its: seq<seq<nat>>)
    requires Agree(db.State()) && Bounded(db.State())
    ensures AllServed(db.messages, f.forward, CursorOf(f), Criteria(f), its)
    ensures TypesOnly(f) && Distinct(f.types.value) ==>
              |its| == 1 && MergedTypes(db.messages, f.forward, CursorOf(f), f.types.value, its[0])
  {
    hide HeadNotLeast, Agree, Indexes, IsIdScan, Serves, AddrPrefix, Mergeable, Meets, BoolTag, CursorOf, AllServed;
    TablesIndex(db.State());
    var cursor, forward := CursorOf(f), f.forward;
    ghost var ms := db.messages;
    ghost var cs: seq<Criterion> := [];
    its := [];
    NoneServed(ms, forward, cursor);
    if f.types.Some? {
      var it := ScanTypes(db.byType, f.types.value, cursor, forward, ms);
      ServedMore(ms, forward, cursor, cs, its, ByType(f.types.value), it);
      its, cs := its + [it], cs + [ByType(f.types.value)];
    }
    if f.incoming.Some? {
      var sender := SenderOf(f.incoming.value);
      var it := ScanTag(db.bySender, BoolTag(sender.Remote?), cursor, forward, ms, SenderPrefix);
      SenderMeets(sender);
      ScanServes(ms, SenderPrefix, [BoolTag(sender.Remote?)], BySender(sender), cursor, forward, it);
      ServedMore(ms, forward, cursor, cs, its, BySender(sender), it);
      its, cs := its + [it], cs + [BySender(sender)];
    }
    if f.sourceType.Some? {
      var initiator := f.sourceType.value;
      var it := ScanTag(db.byInitiator, BoolTag(initiator.InitiatorRemote?), cursor, forward, ms, InitiatorPrefix);
      InitiatorMeets(initiator);
      ScanServes(ms, InitiatorPrefix, [BoolTag(initiator.InitiatorRemote?)], ByInitiator(initiator), cursor, forward, it);
      ServedMore(ms, forward, cursor, cs, its, ByInitiator(initiator), it);
      its, cs := its + [it], cs + [ByInitiator(initiator)];
    }
    if f.remoteAddr.Some? {
      var addr := f.remoteAddr.value;
      var it := ScanAddr(db.byAddr, addr, cursor, forward, ms);
      EndpointMeets(addr);
      ScanServes(ms, EndpointPrefix, AddrPrefix(addr), ByAddr(addr), cursor, forward, it);
      ServedMore(ms, forward, cursor, cs, its, ByAddr(addr), it);
      its, cs := its + [it], cs + [ByAddr(addr)];
    }
    assert cs == Criteria(f);
  }

  /** Every filter whose scan can be in order is served by its iterator. */
  ghost predicate AllServed(ms: map<nat, Message>, forward: bool, cursor: nat, cs: seq<Criterion>, its: seq<seq<nat>>) {
    |its| == |cs| &&
    forall k :: 0 <= k < |its| && Sorted(ms, forward, cursor, cs[k]) ==> Serves(ms, forward, cursor, cs[k], its[k])
  }

  lemma NoneServed(ms: map<nat, Message>, forward: bool, cursor: nat)
    ensures AllServed(ms, forward, cursor, [], [])
  {
  }

  lemma ServedMore(ms: map<nat, Message>, forward: bool, cursor: nat, cs: seq<Criterion>, its: seq<seq<nat>>, c: Criterion,
                   it: seq<nat>)
    requires AllServed(ms, forward, cursor, cs, its)
    requires Sorted(ms, forward, cursor, c) ==> Serves(ms, forward, cursor, c, it)
    ensures AllServed(ms, forward, cursor, cs + [c], its + [it])
  {
    hide Sorted, Serves;
  }

  lemma SenderMeets(sender: Sender)
    ensures forall m :: SenderPrefix(m) == [BoolTag(sender.Remote?)] <==> Meets(BySender(sender), m)
  {
  }

  lemma InitiatorMeets(initiator: Initiator)
    ensures forall m ::
              InitiatorPrefix(m) == [BoolTag(initiator.InitiatorRemote?)] <==> Meets(ByInitiator(initiator), m)
  {
  }

  lemma EndpointMeets(addr: SocketAddr)
    ensures forall m :: EndpointPrefix(m) == AddrPrefix(addr) <==> Meets(ByAddr(addr), m)
  {
    hide AddrPrefix;
    forall m: Message ensures EndpointPrefix(m) == AddrPrefix(addr) <==> Meets(ByAddr(addr), m) {
      AddrPrefixInjective(m.remoteAddr, addr);
    }
  }

  // ---------------------------------------------------------------- the linear scan

  predicate Wanted(f: Filter, ms: map<nat, Message>, id: nat) {
    id in ms && Matches(f, ms[id]) && Reached(f, id)
  }

  /** The specification of a query: look at every id below `n` in turn. */
  function LinearScan(f: Filter, ms: map<nat, Message>, n: nat): seq<nat> {
    if n == 0 then []
    else
      var here := if Wanted(f, ms, n - 1) then [n - 1] else [];
      if f.forward then LinearScan(f, ms, n - 1) + here else here + LinearScan(f, ms, n - 1)
  }

  lemma {:induction false} LinearScanIs(f: Filter, ms: map<nat, Message>, n: nat)
    ensures Mono(f.forward, LinearScan(f, ms, n))
    ensures forall i: nat :: i in LinearScan(f, ms, n) <==> i < n && Wanted(f, ms, i)
  {
    hide Wanted;
    if n > 0 {
      LinearScanIs(f, ms, n - 1);
      var rest := LinearScan(f, ms, n - 1);
      assert forall i :: i in rest ==> i < n - 1;
      if f.forward {
        MonoAdd(true, rest, n - 1);
      } else {
        MonoPush(n - 1, rest);
      }
    }
  }

  /** A sorted list is determined by its elements. */
  lemma {:induction false} SortedUnique(forward: bool, a: seq<nat>, b: seq<nat>)
    requires Mono(forward, a) && Mono(forward, b) && forall x :: x in a <==> x in b
    ensures a == b
    decreases |a|
  {
    if a == [] {
      assert forall i :: 0 <= i < |b| ==> b[i] in b;
    } else {
      var n := |a| - 1;
      assert a[n] in a;
      var m := |b| - 1;
      assert b[m] in b;
      var i :| 0 <= i < |a| && a[i] == b[m];
      var j :| 0 <= j < |b| && b[j] == a[n];
      assert a[n] == b[m];
      forall x ensures x in a[..n] <==> x in b[..m] {
        assert x in a <==> x in a[..n] || x == a[n];
        assert x in b <==> x in b[..m] || x == b[m];
      }
      SortedUnique(forward, a[..n], b[..m]);
    }
  }

  /** All filters of a query together. */
  lemma CriteriaAre(f: Filter, m: Message, id: nat)
    requires !Unfiltered(f)
    ensures Matches(f, m) && Reached(f, id) <==>
            forall k :: 0 <= k < |Criteria(f)| ==>
              Meets(Criteria(f)[k], m) && Within(f.forward, CutOff(Criteria(f)[k], CursorOf(f)), id)
  {
    hide Within, SameEndpoint, CursorOf;
    var cs := Criteria(f);
    if forall k :: 0 <= k < |cs| ==> Meets(cs[k], m) && Within(f.forward, CutOff(cs[k], CursorOf(f)), id) {
      assert f.types.Some? ==> ByType(f.types.value) in cs;
      assert f.incoming.Some? ==> BySender(SenderOf(f.incoming.value)) in cs;
      assert f.sourceType.Some? ==> ByInitiator(f.sourceType.value) in cs;
      assert f.remoteAddr.Some? ==> ByAddr(f.remoteAddr.value) in cs;
    }
  }

  /** The intersection of the iterators is the linear scan. */
  lemma IntersectionIsScan(f: Filter, ms: map<nat, Message>, n: nat, its: seq<seq<nat>>)
    requires !Unfiltered(f) && (forall i :: i in ms ==> i < n) && |its| == |Criteria(f)|
    requires forall k :: 0 <= k < |its| ==> Serves(ms, f.forward, CursorOf(f), Criteria(f)[k], its[k])
    ensures AllMono(f.forward, its) && Shared(its) == LinearScan(f, ms, n)
  {
    hide Shared, LinearScan, CursorOf, Matches, Reached, Meets, Within, CutOff;
    SharedIs(its, f.forward);
    LinearScanIs(f, ms, n);
    forall x ensures x in Shared(its) <==> x in LinearScan(f, ms, n) {
      if x in ms {
        CriteriaAre(f, ms[x], x);
      }
      assert x in its[0] ==> x in ms;
      assert x in ms ==> forall k :: 0 <= k < |its| ==>
          (x in its[k] <==> Meets(Criteria(f)[k], ms[x]) && Within(f.forward, CutOff(Criteria(f)[k], CursorOf(f)), x));
    }
    SortedUnique(f.forward, Shared(its), LinearScan(f, ms, n));
  }

  // ---------------------------------------------------------------- the query

  /** The primary table in id order, from the cursor on. */
  method ScanPrimary(db: Db, f: Filter, limit: nat) returns (ids: seq<nat>)
    requires Unfiltered(f) && Window(db.State())
    ensures ids == Take(LinearScan(f, db.messages, db.messageCounter), limit)
  {
    ids := [];
    var n := 0;
    while n < db.messageCounter
      invariant n <= db.messageCounter && ids == LinearScan(f, db.messages, n)
    {
      var here := if n in db.messages && (f.cursor.Some? ==> Within(f.forward, f.cursor.value, n)) then [n] else [];
      ids := if f.forward then ids + here else here + ids;
      n := n + 1;
    }
    ids := Take(ids, limit);
  }

  /** `fetch_messages`, on any database that stores and restarts can produce.
      Unless the type filter cannot be merged in order, the rows returned are
      the first `limit` of a linear scan; with a filter by distinct types alone
      they are so if and only if it can be merged. */
  method FetchMessages(db: Db, f: Filter) returns (ids: seq<nat>, rows: seq<Message>)
    requires Agree(db.State()) && Window(db.State()) && db.messageCounter <= TWO48
    ensures |rows| == |ids| && forall k :: 0 <= k < |ids| ==> ids[k] in db.messages && rows[k] == db.messages[ids[k]]
    ensures WellOrdered(f, db.messages) ==>
              ids == Take(LinearScan(f, db.messages, db.messageCounter), if f.limit.Some? then f.limit.value else 100)
    ensures TypesOnly(f) && Distinct(f.types.value) && LimitOf(f) >= 1 ==>
              (ids == Take(LinearScan(f, db.messages, db.messageCounter), LimitOf(f)) <==>
               Mergeable(db.messages, f.forward, CursorOf(f), f.types.value))
  {
    hide Agree, LinearScan, Serves, MergedTypes, Mergeable, Distinct, Shared, Criteria, AllMono, Take, CursorOf;
    var limit := LimitOf(f);
    var found;
    if Unfiltered(f) {
      found := ScanPrimary(db, f, limit);
    } else {
      var its := Iterators(db, f);
      found := SortedIntersect(its, limit, f.forward);
      if WellOrdered(f, db.messages) {
        CriteriaSorted(f, db.messages);
        IntersectionIsScan(f, db.messages, db.messageCounter, its);
      }
      if TypesOnly(f) && Distinct(f.types.value) && !WellOrdered(f, db.messages) && limit >= 1 {
        MergedDiffers(f, db.messages, db.messageCounter, its[0], limit);
      }
    }
    if WellOrdered(f, db.messages) {
      FoundAreStored(f, db.messages, db.messageCounter, limit);
    }
    ids, rows := [], [];
    for k := 0 to |found|
      invariant |rows| == |ids| && forall j :: 0 <= j < |ids| ==> ids[j] in db.messages && rows[j] == db.messages[ids[j]]
      invariant (forall j :: 0 <= j < |found| ==> found[j] in db.messages) ==> ids == found[..k]
    {
      if found[k] in db.messages {
        ids, rows := ids + [found[k]], rows + [db.messages[found[k]]];
      }
    }
  }

  function LimitOf(f: Filter): nat {
    if f.limit.Some? then f.limit.value else 100
  }

  /** A merge that does not start with the least id is not the linear scan. */
  lemma MergedDiffers(f: Filter, ms: map<nat, Message>, n: nat, it: seq<nat>, limit: nat)
    requires TypesOnly(f) && limit >= 1 && !Mergeable(ms, f.forward, CursorOf(f), f.types.value)
    requires MergedTypes(ms, f.forward, CursorOf(f), f.types.value, it) && forall i :: i in ms ==> i < n
    ensures Take(it, limit) != Take(LinearScan(f, ms, n), limit)
    ensures forall j :: 0 <= j < |Take(it, limit)| ==> Take(it, limit)[j] in ms
  {
    hide LinearScan, Serves, Mergeable, CursorOf;
    LinearScanIs(f, ms, n);
    NotMergeable(ms, f.forward, CursorOf(f), f.types.value);
    var x :| x in it && x < it[0];
    var all := LinearScan(f, ms, n);
    assert x in all;
    assert forall j :: 0 <= j < |it| ==> it[j] in it;
  }

  lemma NotMergeable(ms: map<nat, Message>, forward: bool, cursor: nat, types: seq<MessageType>)
    requires !Mergeable(ms, forward, cursor, types)
    ensures forward
  {
  }

  lemma TwoStores(m: Message, n: Message)
    ensures ApplyAll(Empty(None), [PutMessage(m), PutMessage(n)]) == Stored(Stored(Empty(None), m), n)
  {
    hide Stored;
    var none: seq<Effect> := [];
    var one, both := [PutMessage(m)], [PutMessage(m), PutMessage(n)];
    assert one[..0] == none && both[..1] == one;
    assert ApplyAll(Empty(None), none) == Empty(None);
    assert ApplyAll(Empty(None), one) == Stored(Empty(None), m);
  }

  lemma TwoStored(m: Message, n: Message)
    ensures var t := Stored(Stored(Empty(None), m), n);
            t.messages == map[0 := m, 1 := n] && t.counter == 2
  {
    hide TypeKey, SenderKey, InitiatorKey, AddrKey, TimestampKey;
  }

  /** The first two messages ever stored, of two types, asked for by type: they
      cannot be merged. */
  lemma TwoTypesAhead(f: Filter, m: Message, n: Message)
    requires TypesOnly(f) && f.forward && f.cursor.None? && f.types.value == [m.ty, n.ty] && m.ty != n.ty
    ensures var t := ApplyAll(Empty(None), [PutMessage(m), PutMessage(n)]);
            && !Mergeable(t.messages, f.forward, CursorOf(f), f.types.value)
            && LinearScan(f, t.messages, t.counter) == [0, 1]
  {
    hide Stored, ApplyAll;
    TwoStores(m, n);
    TwoStored(m, n);
    var ms := map[0 := m, 1 := n];
    assert f.types.value[0] == m.ty && f.types.value[1] == n.ty;
    assert Wanted(f, ms, 0) && Wanted(f, ms, 1);
    assert Within(true, 0, 0) && Within(true, 0, 1);
    assert LinearScan(f, ms, 1) == [0];
  }

  /** So going forward the query does not return them in the order they were
      stored, and with a limit of one not the first of them. */
  method ForwardQueryDisordered(f: Filter, m: Message, n: Message) returns (ids: seq<nat>, rows: seq<Message>)
    requires TypesOnly(f) && f.forward && f.cursor.None? && f.types.value == [m.ty, n.ty] && m.ty != n.ty
    requires LimitOf(f) >= 1
    ensures ids != Take([0, 1], LimitOf(f))
  {
    hide Stored, LinearScan, Mergeable, Agree, Take;
    var db := new Db(None);
    EmptyAgrees(None);
    ApplyKeeps(db.State(), PutMessage(m));
    db.StoreMessage(m);
    ApplyKeeps(db.State(), PutMessage(n));
    db.StoreMessage(n);
    TwoStores(m, n);
    TwoTypesAhead(f, m, n);
    ids, rows := FetchMessages(db, f);
  }

  lemma CriteriaSorted(f: Filter, ms: map<nat, Message>)
    requires WellOrdered(f, ms)
    ensures forall k :: 0 <= k < |Criteria(f)| ==> Sorted(ms, f.forward, CursorOf(f), Criteria(f)[k])
  {
  }

  lemma FoundAreStored(f: Filter, ms: map<nat, Message>, n: nat, limit: nat)
    ensures var found := Take(LinearScan(f, ms, n), limit);
            forall j :: 0 <= j < |found| ==> found[j] in ms
  {
    LinearScanIs(f, ms, n);
    var all := LinearScan(f, ms, n);
    assert forall j :: 0 <= j < |all| ==> all[j] in all;
  }

  /** With a cursor below 2^48, or none, a query starts exactly at its cursor. */
  lemma CursorExact(f: Filter, id: nat)
    requires id < TWO48 && (f.cursor.Some? ==> f.cursor.value < TWO48)
    ensures Reached(f, id) <==> f.cursor.Some? ==> Within(f.forward, f.cursor.value, id)
  {
    assert (TWO64 - 1) % TWO56 == TWO56 - 1 && (TWO64 - 1) % TWO48 == TWO48 - 1;
  }

  predicate ByTag(f: Filter) {
    f.types.Some? || f.incoming.Some? || f.sourceType.Some?
  }

  /** The cursors that survive being cut to the width of the indexes. */
  predicate CursorSurvives(f: Filter, cursor: nat) {
    || cursor < TWO48
    || (if f.forward then ByTag(f) && cursor % TWO56 >= TWO48
        else (ByTag(f) ==> cursor % TWO56 >= TWO48 - 1) && (f.remoteAddr.Some? ==> cursor % TWO48 == TWO48 - 1))
  }

  /** A filtered query starts exactly at its cursor if and only if the cursor survives. */
  lemma CursorIff(f: Filter, cursor: u64)
    requires !Unfiltered(f) && f.cursor == Some(cursor)
    ensures (forall id: nat :: id < TWO48 ==> (Reached(f, id) <==> Within(f.forward, cursor, id))) <==>
            CursorSurvives(f, cursor)
  {
    var a, b := cursor % TWO56, cursor % TWO48;
    if cursor >= TWO48 && !CursorSurvives(f, cursor) {
      var id: nat :=
        if !f.forward then TWO48 - 1
        else if !ByTag(f) then b
        else if f.remoteAddr.Some? && b > a then b
        else a;
      assert Reached(f, id) != Within(f.forward, cursor, id);
    }
  }

  /** A larger cursor loses its high bits: going backward from 2^48 the
      endpoint filter reaches nothing but id 0, and going forward it reaches
      everything. */
  lemma CursorTruncated(f: Filter, id: nat)
    requires f.cursor == Some(TWO48) && f.remoteAddr.Some? && id < TWO48
    requires f.types.None? && f.incoming.None? && f.sourceType.None?
    ensures Reached(f, id) <==> f.forward || id == 0
    ensures Within(f.forward, TWO48, id) <==> !f.forward
  {
  }
}
