/** Which messages a direction stores, said without the parser: chunks 0, 1
    and 2 are the connection, metadata and acknowledge messages; from chunk 3
    on the chunks are tiled by groups, each headed by a declared size. */
module MessageRanges {
  import opened Wrappers
  import opened Bytes
  import opened Common
  import opened MessageParsing

  /** Chunks `first..end`; `complete` when their sizes add up to what the
      first of them declares, otherwise the last of them overran it. */
  datatype Group = Group(first: nat, end: nat, complete: bool)

  /** Total size of chunks `i..j`. */
  function Size(plains: seq<seq<byte>>, i: nat, j: nat): nat
    requires i <= j <= |plains|
    decreases j
  {
    if i == j then 0 else Size(plains, i, j - 1) + |plains[j - 1]|
  }

  /** Chunks `i..j` are the beginning of one message, not all of it. */
  ghost predicate Unfinished(plains: seq<seq<byte>>, i: nat, j: nat)
    requires i < j <= |plains|
  {
    && |plains[i]| >= 6
    && (forall m :: i < m < j ==> plains[m] != [])
    && Size(plains, i, j) < Declared(plains[i])
  }

  ghost predicate IsGroup(plains: seq<seq<byte>>, g: Group) {
    && 3 <= g.first < g.end <= |plains|
    && |plains[g.first]| >= 6 && plains[g.end - 1] != []
    && (g.first < g.end - 1 ==> Unfinished(plains, g.first, g.end - 1))
    && (if g.complete then Size(plains, g.first, g.end) == Declared(plains[g.first])
        else Size(plains, g.first, g.end) > Declared(plains[g.first]))
  }

  function EndOf(groups: seq<Group>): nat {
    if groups == [] then 3 else groups[|groups| - 1].end
  }

  /** The groups follow each other without a gap, starting at chunk 3. */
  ghost predicate Tiled(plains: seq<seq<byte>>, groups: seq<Group>) {
    groups != [] ==>
      var n := |groups| - 1;
      IsGroup(plains, groups[n]) && groups[n].first == EndOf(groups[..n]) && Tiled(plains, groups[..n])
  }

  /** The chunks are all of acceptable size: `groups` are the finished groups,
      what follows the last of them is the beginning of one more message. */
  ghost predicate Understood(plains: seq<seq<byte>>, groups: seq<Group>) {
    && (|plains| > 0 ==> |plains[0]| >= 82)
    && (|plains| > 1 ==> |plains[1]| >= 2)
    && (|plains| > 2 ==> plains[2] != [])
    && Tiled(plains, groups)
    && (|plains| > EndOf(groups) ==> Unfinished(plains, EndOf(groups), |plains|))
  }

  /** The next chunk is too small for its place. */
  predicate TooSmallNext(plains: seq<seq<byte>>, groups: seq<Group>, p: seq<byte>) {
    match |plains|
    case 0 => |p| < 82
    case 1 => |p| < 2
    case 2 => p == []
    case n => if n <= EndOf(groups) then |p| < 6 else p == []
  }

  function HandshakeMessage(env: Env, item: ConnItem, c: Chunk, i: nat): Message {
    Build(env, item, c, if i == 0 then Connection else if i == 1 then Meta else Ack, i, i + 1)
  }

  /** The messages of chunks 0, 1 and 2. */
  function Handshakes(env: Env, item: ConnItem, cs: seq<Chunk>): seq<Message>
    decreases |cs|
  {
    if cs == [] then []
    else if |cs| > 3 then Handshakes(env, item, cs[..3])
    else Handshakes(env, item, cs[..|cs| - 1]) + [HandshakeMessage(env, item, cs[|cs| - 1], |cs| - 1)]
  }

  function Plains(cs: seq<Chunk>): (ps: seq<seq<byte>>)
    ensures |ps| == |cs|
  {
    seq(|cs|, i requires 0 <= i < |cs| => cs[i].plain)
  }

  /** The messages of the complete groups. */
  ghost function Peers(env: Env, item: ConnItem, cs: seq<Chunk>, groups: seq<Group>): seq<Message>
    requires Tiled(Plains(cs), groups)
  {
    if groups == [] then []
    else
      var g := groups[|groups| - 1];
      Peers(env, item, cs, groups[..|groups| - 1]) +
      (if g.complete then
         [Build(env, item, cs[g.end - 1], P2p(KindFromTag(BeVal(cs[g.first].plain[4..6]))), g.first, g.end)]
       else [])
  }

  function MessagesIn(es: seq<Effect>): seq<Message> {
    if es == [] then []
    else MessagesIn(es[..|es| - 1]) +
         (match es[|es| - 1] case PutMessage(m) => [m] case _ => [])
  }

  function ChunksIn(es: seq<Effect>): seq<Chunk> {
    if es == [] then []
    else ChunksIn(es[..|es| - 1]) +
         (match es[|es| - 1] case PutChunk(c) => [c] case _ => [])
  }

  lemma {:induction false} InAppend(a: seq<Effect>, b: seq<Effect>)
    ensures MessagesIn(a + b) == MessagesIn(a) + MessagesIn(b)
    ensures ChunksIn(a + b) == ChunksIn(a) + ChunksIn(b)
    decreases |b|
  {
    if b == [] {
      assert a + b == a;
    } else {
      assert (a + b)[..|a + b| - 1] == a + b[..|b| - 1];
      InAppend(a, b[..|b| - 1]);
    }
  }

  // ---------------------------------------------------------------- sizes

  lemma {:induction false} SizePrefix(plains: seq<seq<byte>>, more: seq<seq<byte>>, i: nat, j: nat)
    requires i <= j <= |plains|
    ensures Size(plains + more, i, j) == Size(plains, i, j)
    decreases j
  {
    if i < j {
      SizePrefix(plains, more, i, j - 1);
    }
  }

  lemma UnfinishedPrefix(plains: seq<seq<byte>>, more: seq<seq<byte>>, i: nat, j: nat)
    requires i < j <= |plains|
    ensures Unfinished(plains + more, i, j) == Unfinished(plains, i, j)
  {
    SizePrefix(plains, more, i, j);
    assert forall m :: i <= m < j ==> (plains + more)[m] == plains[m];
  }

  lemma GroupPrefix(plains: seq<seq<byte>>, more: seq<seq<byte>>, g: Group)
    requires g.end <= |plains|
    ensures IsGroup(plains + more, g) == IsGroup(plains, g)
  {
    if 3 <= g.first < g.end {
      SizePrefix(plains, more, g.first, g.end);
      if g.first < g.end - 1 {
        UnfinishedPrefix(plains, more, g.first, g.end - 1);
      }
    }
  }

  lemma {:induction false} TiledPrefix(plains: seq<seq<byte>>, more: seq<seq<byte>>, groups: seq<Group>)
    requires Tiled(plains, groups)
    ensures Tiled(plains + more, groups)
    decreases |groups|
  {
    if groups != [] {
      GroupPrefix(plains, more, groups[|groups| - 1]);
      TiledPrefix(plains, more, groups[..|groups| - 1]);
    }
  }

  lemma TiledAdd(plains: seq<seq<byte>>, groups: seq<Group>, g: Group)
    requires Tiled(plains, groups) && IsGroup(plains, g) && g.first == EndOf(groups)
    ensures Tiled(plains, groups + [g]) && EndOf(groups + [g]) == g.end
  {
    assert (groups + [g])[..|groups|] == groups;
  }

  // ---------------------------------------------------------------- the parser

  /** Chunks numbered 0, 1, 2, ... as a buffer produces them. */
  ghost predicate Numbered(cs: seq<Chunk>) {
    forall i :: 0 <= i < |cs| ==>
      cs[i].counter == i && |cs[i].plain| < 0x1_0000_0000 && cs[i].bytes != []
  }

  /** The parser's state after chunks that are all understood. */
  ghost predicate Tracks(cs: seq<Chunk>, groups: seq<Group>, mp: Mp)
    requires Understood(Plains(cs), groups)
  {
    var n, first, plains := |cs|, EndOf(groups), Plains(cs);
    !mp.error &&
    if n <= first then mp.builder.None?
    else
      mp.builder == Some(Builder(P2p(KindFromTag(BeVal(plains[first][4..6]))),
                                 Declared(plains[first]) - Size(plains, first, n), first, n))
  }

  lemma PlainsAppend(cs: seq<Chunk>, c: Chunk)
    ensures Plains(cs + [c]) == Plains(cs) + [c.plain]
  {
  }

  lemma SizeOne(plains: seq<seq<byte>>, i: nat)
    requires i < |plains|
    ensures Size(plains, i, i + 1) == |plains[i]|
  {
    assert Size(plains, i, i) == 0;
  }

  /** The finished groups once chunk `p` has arrived: the current message
      goes on, or it ends, or it is overrun. */
  function NextGroups(plains: seq<seq<byte>>, groups: seq<Group>, p: seq<byte>): seq<Group> {
    var first, n, all := EndOf(groups), |plains|, plains + [p];
    if n < first || |all[first]| < 6 || Size(all, first, n + 1) < Declared(all[first]) then groups
    else groups + [Group(first, n + 1, Size(all, first, n + 1) == Declared(all[first]))]
  }

  /** What one more chunk sees of the message in progress. */
  lemma Ahead(plains: seq<seq<byte>>, groups: seq<Group>, p: seq<byte>)
    requires |plains| >= 3 && Understood(plains, groups) && !TooSmallNext(plains, groups, p)
    ensures var first, n, all := EndOf(groups), |plains|, plains + [p];
            && 3 <= first <= n && |all[first]| >= 6 && p != []
            && Size(all, first, n) == Size(plains, first, n)
            && Size(all, first, n + 1) == Size(plains, first, n) + |p|
            && (first < n ==> Unfinished(all, first, n))
            && (first == n ==> Size(plains, first, n) == 0)
  {
    var first, n := EndOf(groups), |plains|;
    EndInRange(plains, groups);
    SizePrefix(plains, [p], first, n);
    if first < n {
      UnfinishedPrefix(plains, [p], first, n);
    }
  }

  lemma Extend(plains: seq<seq<byte>>, groups: seq<Group>, p: seq<byte>)
    requires |plains| >= 3 && Understood(plains, groups) && !TooSmallNext(plains, groups, p)
    ensures Understood(plains + [p], NextGroups(plains, groups, p))
  {
    hide Size, Declared, Tiled, Unfinished, IsGroup, EndOf, TooSmallNext;
    var first, n, all := EndOf(groups), |plains|, plains + [p];
    Ahead(plains, groups, p);
    TiledPrefix(plains, [p], groups);
    if Size(all, first, n + 1) < Declared(all[first]) {
      GoesOn(all, first, n);
    } else {
      Closes(all, first, n);
      TiledAdd(all, groups, Group(first, n + 1, Size(all, first, n + 1) == Declared(all[first])));
    }
  }

  lemma Closes(all: seq<seq<byte>>, first: nat, n: nat)
    requires 3 <= first <= n < |all| && |all[first]| >= 6 && all[n] != []
    requires first < n ==> Unfinished(all, first, n)
    requires Size(all, first, n + 1) >= Declared(all[first])
    ensures IsGroup(all, Group(first, n + 1, Size(all, first, n + 1) == Declared(all[first])))
  {
  }

  lemma GoesOn(all: seq<seq<byte>>, first: nat, n: nat)
    requires first <= n < |all| && |all[first]| >= 6 && all[n] != []
    requires first < n ==> Unfinished(all, first, n)
    requires Size(all, first, n + 1) < Declared(all[first])
    ensures Unfinished(all, first, n + 1)
  {
  }

  lemma EndInRange(plains: seq<seq<byte>>, groups: seq<Group>)
    requires Tiled(plains, groups)
    ensures EndOf(groups) == 3 || 3 < EndOf(groups) <= |plains|
  {
    if groups != [] {
      assert IsGroup(plains, groups[|groups| - 1]);
    }
  }

  /** All the messages of chunks that are understood. */
  ghost function Expected(env: Env, item: ConnItem, cs: seq<Chunk>, groups: seq<Group>): seq<Message>
    requires Tiled(Plains(cs), groups)
  {
    Handshakes(env, item, cs) + Peers(env, item, cs, groups)
  }

  lemma {:induction false} PeersPrefix(env: Env, item: ConnItem, cs: seq<Chunk>, c: Chunk, groups: seq<Group>)
    requires Tiled(Plains(cs), groups)
    ensures Tiled(Plains(cs + [c]), groups)
    ensures Peers(env, item, cs + [c], groups) == Peers(env, item, cs, groups)
    decreases |groups|
  {
    PlainsAppend(cs, c);
    TiledPrefix(Plains(cs), [c.plain], groups);
    if groups != [] {
      PeersPrefix(env, item, cs, c, groups[..|groups| - 1]);
    }
  }

  /** During the handshake chunks there is no group yet. */
  lemma NoGroupsYet(plains: seq<seq<byte>>, groups: seq<Group>)
    requires Tiled(plains, groups) && |plains| <= 3
    ensures groups == []
  {
  }

  /** The parser finds too small exactly the chunks that are. */
  lemma TooSmallAgrees(cs: seq<Chunk>, groups: seq<Group>, mp: Mp, c: Chunk)
    requires Understood(Plains(cs), groups) && Tracks(cs, groups, mp) && c.counter == |cs|
    ensures TooSmall(mp, c) <==> TooSmallNext(Plains(cs), groups, c.plain)
  {
  }

  /** Chunks 0, 1 and 2 are a message each. */
  lemma HandshakeStep(env: Env, item: ConnItem, cs: seq<Chunk>, groups: seq<Group>, mp: Mp, c: Chunk)
    requires Numbered(cs + [c]) && c.counter == |cs| < 3
    requires Understood(Plains(cs), groups) && Tracks(cs, groups, mp)
    requires !TooSmallNext(Plains(cs), groups, c.plain)
    ensures groups == [] && Understood(Plains(cs + [c]), []) && Tracks(cs + [c], [], MpStep(env, item, mp, c).mp)
    ensures var e := MpStep(env, item, mp, c).effects;
            Handshakes(env, item, cs + [c]) == Handshakes(env, item, cs) + MessagesIn(e) && ChunksIn(e) == [c]
  {
    NoGroupsYet(Plains(cs), groups);
    PlainsAppend(cs, c);
    TooSmallAgrees(cs, groups, mp, c);
    var m := HandshakeMessage(env, item, c, |cs|);
    assert MpStep(env, item, mp, c) == MpResult(item, mp, [PutChunk(c), PutMessage(m)]);
    hide MpStep, HandshakeMessage;
    TwoEffects(c, m);
    assert (cs + [c])[..|cs|] == cs;
  }

  lemma TwoEffects(c: Chunk, m: Message)
    ensures MessagesIn([PutChunk(c), PutMessage(m)]) == [m] && ChunksIn([PutChunk(c), PutMessage(m)]) == [c]
  {
    OneEffect(c);
    assert [PutChunk(c), PutMessage(m)][..1] == [PutChunk(c)];
  }

  lemma OneEffect(c: Chunk)
    ensures MessagesIn([PutChunk(c)]) == [] && ChunksIn([PutChunk(c)]) == [c]
  {
    assert [PutChunk(c)][..0] == [];
    assert MessagesIn([PutChunk(c)][..0]) == [] && ChunksIn([PutChunk(c)][..0]) == [];
  }

  /** What linking a chunk to the message in progress gives. */
  lemma LinkNext(cs: seq<Chunk>, groups: seq<Group>, mp: Mp, c: Chunk)
    requires Numbered(cs + [c]) && c.counter == |cs| >= 3
    requires Understood(Plains(cs), groups) && Tracks(cs, groups, mp)
    requires !TooSmallNext(Plains(cs), groups, c.plain) && !TooSmall(mp, c)
    ensures var first, n, all := EndOf(groups), |cs|, Plains(cs) + [c.plain];
            first <= n && |all[first]| >= 6 &&
            var size, declared := Size(all, first, n + 1), Declared(all[first]);
            var ty := P2p(KindFromTag(BeVal(all[first][4..6])));
            LinkChunk(CurrentBuilder(mp, c), |c.plain|) ==
            if size > declared then Overrun
            else if size == declared then Full(Builder(ty, 0, first, n + 1))
            else Partial(Builder(ty, declared - size, first, n + 1))
  {
    hide BeVal, KindFromTag, Understood, Size, Unfinished, TooSmallNext;
    assert (cs + [c])[|cs|] == c;
    Ahead(Plains(cs), groups, c.plain);
  }

  /** The parser's step on a peer chunk, said with the groups. */
  lemma PeerStepShape(env: Env, item: ConnItem, cs: seq<Chunk>, groups: seq<Group>, mp: Mp, c: Chunk)
    requires Numbered(cs + [c]) && c.counter == |cs| >= 3
    requires Understood(Plains(cs), groups) && Tracks(cs, groups, mp)
    requires !TooSmallNext(Plains(cs), groups, c.plain)
    ensures var first, n, all := EndOf(groups), |cs|, Plains(cs) + [c.plain];
            first <= n && |all[first]| >= 6 &&
            var size, declared := Size(all, first, n + 1), Declared(all[first]);
            var ty := P2p(KindFromTag(BeVal(all[first][4..6])));
            var r := MpStep(env, item, mp, c);
            !r.mp.error &&
            if size > declared then r.mp.builder.None? && r.effects == [PutChunk(c)]
            else if size < declared then
              r.mp.builder == Some(Builder(ty, declared - size, first, n + 1)) && r.effects == [PutChunk(c)]
            else
              r.mp.builder.None? && r.effects == [PutChunk(c), PutMessage(Build(env, item, c, ty, first, n + 1))]
  {
    TooSmallAgrees(cs, groups, mp, c);
    LinkNext(cs, groups, mp, c);
    hide Understood, TooSmallNext, LinkChunk, Size, Plains, BeVal, KindFromTag, TooSmall, CurrentBuilder, Declared;
  }

  lemma TracksOn(cs: seq<Chunk>, c: Chunk, groups: seq<Group>, mp: Mp)
    requires Understood(Plains(cs) + [c.plain], groups) && EndOf(groups) <= |cs| && !mp.error
    requires var first, n, all := EndOf(groups), |cs|, Plains(cs) + [c.plain];
             |all[first]| >= 6 && Declared(all[first]) >= Size(all, first, n + 1) &&
             mp.builder == Some(Builder(P2p(KindFromTag(BeVal(all[first][4..6]))),
                                        Declared(all[first]) - Size(all, first, n + 1), first, n + 1))
    ensures Understood(Plains(cs + [c]), groups) && Tracks(cs + [c], groups, mp)
  {
    hide Understood, EndOf, Size, Declared, BeVal, KindFromTag, Plains;
    PlainsAppend(cs, c);
  }

  lemma TracksEnd(cs: seq<Chunk>, c: Chunk, groups: seq<Group>, mp: Mp)
    requires Understood(Plains(cs) + [c.plain], groups) && EndOf(groups) == |cs| + 1 && !mp.error && mp.builder.None?
    ensures Understood(Plains(cs + [c]), groups) && Tracks(cs + [c], groups, mp)
  {
    hide Understood, EndOf, Size, Declared, BeVal, KindFromTag, Plains;
    PlainsAppend(cs, c);
  }

  lemma PeersPush(env: Env, item: ConnItem, cs: seq<Chunk>, c: Chunk, groups: seq<Group>, g: Group)
    requires Tiled(Plains(cs), groups) && Tiled(Plains(cs) + [c.plain], groups + [g]) && g.end == |cs| + 1
    ensures var all := Plains(cs) + [c.plain];
            g.first < |all| && |all[g.first]| >= 6 && Tiled(Plains(cs + [c]), groups + [g]) &&
            Peers(env, item, cs + [c], groups + [g]) ==
            Peers(env, item, cs, groups) +
            if g.complete then [Build(env, item, c, P2p(KindFromTag(BeVal(all[g.first][4..6]))), g.first, g.end)] else []
  {
    hide Build, BeVal, KindFromTag, Size, Declared, Unfinished;
    PlainsAppend(cs, c);
    PeersPrefix(env, item, cs, c, groups);
    assert (groups + [g])[..|groups|] == groups;
    assert (cs + [c])[g.first].plain == Plains(cs + [c])[g.first];
  }

  /** The message in progress goes on, ends, or is overrun. */
  lemma NextIs(plains: seq<seq<byte>>, groups: seq<Group>, p: seq<byte>)
    requires EndOf(groups) <= |plains| && |(plains + [p])[EndOf(groups)]| >= 6
    ensures var first, n, all := EndOf(groups), |plains|, plains + [p];
            var size, declared := Size(all, first, n + 1), Declared(all[first]);
            var g := Group(first, n + 1, size == declared);
            NextGroups(plains, groups, p) == (if size < declared then groups else groups + [g]) &&
            EndOf(groups + [g]) == n + 1
  {
    hide Size, Declared;
  }

  lemma TiledOf(plains: seq<seq<byte>>, groups: seq<Group>)
    requires Understood(plains, groups)
    ensures Tiled(plains, groups)
  {
  }

  /** From chunk 3 on, a chunk ends its message exactly when the sizes meet. */
  lemma PeerStep(env: Env, item: ConnItem, cs: seq<Chunk>, groups: seq<Group>, mp: Mp, c: Chunk)
    requires Numbered(cs + [c]) && c.counter == |cs| >= 3
    requires Understood(Plains(cs), groups) && Tracks(cs, groups, mp)
    requires !TooSmallNext(Plains(cs), groups, c.plain)
    ensures var groups' := NextGroups(Plains(cs), groups, c.plain);
            var r := MpStep(env, item, mp, c);
            Understood(Plains(cs + [c]), groups') && Tracks(cs + [c], groups', r.mp) &&
            Peers(env, item, cs + [c], groups') == Peers(env, item, cs, groups) + MessagesIn(r.effects) &&
            ChunksIn(r.effects) == [c]
  {
    hide MpStep, TooSmallNext, BeVal, KindFromTag, Declared, Build, Understood, Tiled, Size, EndOf, NextGroups, Plains,
      MessagesIn, ChunksIn, Tracks, Numbered;
    var plains := Plains(cs);
    var groups', r := NextGroups(plains, groups, c.plain), MpStep(env, item, mp, c);
    Extend(plains, groups, c.plain);
    PeerStepShape(env, item, cs, groups, mp, c);
    NextIs(plains, groups, c.plain);
    OneEffect(c);
    TiledOf(plains, groups);
    TiledOf(plains + [c.plain], groups');
    PeersPrefix(env, item, cs, c, groups);
    var all, first, n := plains + [c.plain], EndOf(groups), |cs|;
    var size, declared := Size(all, first, n + 1), Declared(all[first]);
    if size < declared {
      TracksOn(cs, c, groups, r.mp);
    } else {
      var g := Group(first, n + 1, size == declared);
      TracksEnd(cs, c, groups + [g], r.mp);
      PeersPush(env, item, cs, c, groups, g);
      TwoEffects(c, Build(env, item, c, P2p(KindFromTag(BeVal(all[first][4..6]))), first, n + 1));
    }
  }

  /** Once a chunk was too small, chunks are stored and nothing else. */
  lemma ErrorStep(env: Env, item: ConnItem, mp: Mp, c: Chunk)
    requires (mp.error || TooSmall(mp, c)) && c.bytes != []
    ensures var r := MpStep(env, item, mp, c);
            r.mp.error && MessagesIn(r.effects) == [] && ChunksIn(r.effects) == [c]
  {
    OneEffect(c);
  }

  /** What the parser made of `cs`: all chunks are stored, together with
      exactly the messages of the first `h` chunks; those are understood, and
      chunk `h`, if there is one, is too small and ends all parsing. */
  ghost predicate Parsed(env: Env, item: ConnItem, cs: seq<Chunk>, r: MpResult, h: nat, groups: seq<Group>) {
    && h <= |cs| && Understood(Plains(cs[..h]), groups)
    && ChunksIn(r.effects) == cs
    && MessagesIn(r.effects) == Expected(env, item, cs[..h], groups)
    && (r.mp.error <==> h < |cs|)
    && (h < |cs| ==> TooSmallNext(Plains(cs[..h]), groups, cs[h].plain))
    && (h == |cs| ==> Tracks(cs[..h], groups, r.mp))
  }

  function After(r: MpResult, s: MpResult): MpResult {
    MpResult(s.item, s.mp, r.effects + s.effects)
  }

  lemma ParsedNothing(env: Env, item: ConnItem)
    ensures Parsed(env, item, [], MpResult(item, FRESH, []), 0, [])
  {
  }

  lemma ParsedAfterError(env: Env, item: ConnItem, cs: seq<Chunk>, r: MpResult, h: nat, groups: seq<Group>, c: Chunk)
    requires Parsed(env, item, cs, r, h, groups) && h < |cs| && c.bytes != []
    ensures Parsed(env, item, cs + [c], After(r, MpStep(env, r.item, r.mp, c)), h, groups)
  {
    var s := MpStep(env, r.item, r.mp, c);
    ErrorStep(env, r.item, r.mp, c);
    InAppend(r.effects, s.effects);
    assert (cs + [c])[..h] == cs[..h];
    hide MpStep, Understood, TooSmallNext, Expected;
  }

  lemma ParsedAtError(env: Env, item: ConnItem, cs: seq<Chunk>, r: MpResult, groups: seq<Group>, c: Chunk)
    requires Parsed(env, item, cs, r, |cs|, groups) && c.bytes != [] && c.counter == |cs|
    requires TooSmallNext(Plains(cs), groups, c.plain)
    ensures Parsed(env, item, cs + [c], After(r, MpStep(env, r.item, r.mp, c)), |cs|, groups)
  {
    var s := MpStep(env, r.item, r.mp, c);
    assert cs[..|cs|] == cs;
    TooSmallAgrees(cs, groups, r.mp, c);
    ErrorStep(env, r.item, r.mp, c);
    InAppend(r.effects, s.effects);
    assert (cs + [c])[..|cs|] == cs;
    hide MpStep, Understood, TooSmallNext, Expected, Tracks;
  }

  lemma ParsedOn(env: Env, item: ConnItem, cs: seq<Chunk>, r: MpResult, groups: seq<Group>, c: Chunk)
    returns (groups': seq<Group>)
    requires Parsed(env, item, cs, r, |cs|, groups) && Numbered(cs + [c]) && c.counter == |cs|
    requires Same(item, r.item) && !TooSmallNext(Plains(cs), groups, c.plain)
    ensures Parsed(env, item, cs + [c], After(r, MpStep(env, r.item, r.mp, c)), |cs| + 1, groups')
  {
    var s := MpStep(env, r.item, r.mp, c);
    assert cs[..|cs|] == cs;
    groups' := ParseOne(env, item, r.item, cs, groups, r.mp, c);
    InAppend(r.effects, s.effects);
    assert (cs + [c])[..|cs| + 1] == cs + [c];
    hide MpStep, Understood, TooSmallNext, Expected;
  }

  /** The parser is right: over any chunks, it stores all of them, and exactly
      the messages of the longest run of chunks that is understood. */
  lemma {:induction false} Parse(env: Env, item: ConnItem, cs: seq<Chunk>) returns (h: nat, groups: seq<Group>)
    requires Numbered(cs)
    ensures h <= |cs| && Parsed(env, item, cs, MpRun(env, item, FRESH, cs), h, groups)
    decreases |cs|
  {
    hide MpStep, TooSmallNext, Parsed, Plains;
    if cs == [] {
      ParsedNothing(env, item);
      return 0, [];
    }
    var n := |cs| - 1;
    var init, c := cs[..n], cs[n];
    h, groups := Parse(env, item, init);
    var r := MpRun(env, item, FRESH, init);
    RunSame(env, item, item, FRESH, init);
    assert cs == init + [c];
    assert MpRun(env, item, FRESH, cs) == After(r, MpStep(env, r.item, r.mp, c));
    if h < n {
      ParsedAfterError(env, item, init, r, h, groups, c);
    } else if TooSmallNext(Plains(init), groups, c.plain) {
      ParsedAtError(env, item, init, r, groups, c);
    } else {
      groups := ParsedOn(env, item, init, r, groups, c);
      h := n + 1;
    }
  }

  lemma ParseOne(env: Env, item: ConnItem, item': ConnItem, cs: seq<Chunk>, groups: seq<Group>, mp: Mp, c: Chunk)
    returns (groups': seq<Group>)
    requires Same(item, item') && Numbered(cs + [c]) && Understood(Plains(cs), groups) && Tracks(cs, groups, mp)
    requires c.counter == |cs| && !TooSmallNext(Plains(cs), groups, c.plain)
    ensures Understood(Plains(cs + [c]), groups')
    ensures var s := MpStep(env, item', mp, c);
            Tracks(cs + [c], groups', s.mp) && ChunksIn(s.effects) == [c] &&
            Expected(env, item, cs + [c], groups') == Expected(env, item, cs, groups) + MessagesIn(s.effects)
  {
    hide MpStep, Understood, Tracks, TooSmallNext, Handshakes, NextGroups, Peers, MessagesIn, ChunksIn, Numbered;
    StepSame(env, item, item', mp, c);
    var h, ms := Handshakes(env, item, cs), MessagesIn(MpStep(env, item, mp, c).effects);
    if |cs| < 3 {
      HandshakeStep(env, item, cs, groups, mp, c);
      groups' := [];
      NoPeersYet(env, item, cs);
      NoPeersYet(env, item, cs + [c]);
      assert (h + ms) + [] == (h + []) + ms;
    } else {
      PeerStep(env, item, cs, groups, mp, c);
      groups' := NextGroups(Plains(cs), groups, c.plain);
      HandshakesDone(env, item, cs, c);
      TiledOf(Plains(cs), groups);
      TiledOf(Plains(cs + [c]), groups');
      var p := Peers(env, item, cs, groups);
      assert h + (p + ms) == (h + p) + ms;
    }
  }

  lemma NoPeersYet(env: Env, item: ConnItem, cs: seq<Chunk>)
    ensures Tiled(Plains(cs), []) && Peers(env, item, cs, []) == []
  {
  }

  lemma HandshakesDone(env: Env, item: ConnItem, cs: seq<Chunk>, c: Chunk)
    requires |cs| >= 3
    ensures Handshakes(env, item, cs + [c]) == Handshakes(env, item, cs)
  {
    assert (cs + [c])[..3] == cs[..3];
    assert |cs| == 3 ==> cs[..3] == cs;
  }
}
