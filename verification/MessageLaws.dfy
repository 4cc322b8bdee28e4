/** What follows from the tiling: it is unique, and the ranges of the stored
    messages are ordered, disjoint and of the declared size. */
module MessageLaws {
  import opened Bytes
  import opened Common
  import opened MessageParsing
  import opened MessageRanges

  lemma {:induction false} SizeMonotone(plains: seq<seq<byte>>, i: nat, j: nat, k: nat)
    requires i <= j <= k <= |plains|
    ensures Size(plains, i, j) <= Size(plains, i, k)
    decreases k
  {
    if j < k {
      SizeMonotone(plains, i, j, k - 1);
    }
  }

  /** Every group of a tiling is a group and starts where the one before ends. */
  lemma {:induction false} TiledAt(plains: seq<seq<byte>>, groups: seq<Group>, k: nat)
    requires Tiled(plains, groups) && k < |groups|
    ensures IsGroup(plains, groups[k]) && groups[k].first == EndOf(groups[..k])
    decreases |groups|
  {
    var n := |groups| - 1;
    if k < n {
      TiledAt(plains, groups[..n], k);
      assert groups[..n][..k] == groups[..k];
    }
  }

  /** A group ends at the first chunk that reaches the declared size. */
  lemma GroupEndUnique(plains: seq<seq<byte>>, a: Group, b: Group)
    requires IsGroup(plains, a) && IsGroup(plains, b) && a.first == b.first
    ensures a == b
  {
    if a.end < b.end {
      SizeMonotone(plains, a.first, a.end, b.end - 1);
    } else if b.end < a.end {
      SizeMonotone(plains, a.first, b.end, a.end - 1);
    }
  }

  lemma {:induction false} TilingsAgree(plains: seq<seq<byte>>, a: seq<Group>, b: seq<Group>, k: nat)
    requires Tiled(plains, a) && Tiled(plains, b) && k <= |a| && k <= |b|
    ensures a[..k] == b[..k]
    decreases k
  {
    if k > 0 {
      TilingsAgree(plains, a, b, k - 1);
      TiledAt(plains, a, k - 1);
      TiledAt(plains, b, k - 1);
      GroupEndUnique(plains, a[k - 1], b[k - 1]);
      assert a[..k] == a[..k - 1] + [a[k - 1]] && b[..k] == b[..k - 1] + [b[k - 1]];
    }
  }

  /** No tiling has more groups than the one that leaves nothing finished over. */
  lemma NotLonger(plains: seq<seq<byte>>, a: seq<Group>, b: seq<Group>)
    requires Understood(plains, a) && Tiled(plains, b)
    ensures |b| <= |a|
  {
    if |a| < |b| {
      var k := |a|;
      TilingsAgree(plains, a, b, k);
      TiledAt(plains, b, k);
      assert a[..k] == a;
      var g := b[k];
      SizeMonotone(plains, g.first, g.end, |plains|);
    }
  }

  /** Chunks are understood in one way only. */
  lemma UnderstoodUnique(plains: seq<seq<byte>>, a: seq<Group>, b: seq<Group>)
    requires Understood(plains, a) && Understood(plains, b)
    ensures a == b
  {
    NotLonger(plains, a, b);
    NotLonger(plains, b, a);
    TilingsAgree(plains, a, b, |a|);
    assert a[..|a|] == a && b[..|a|] == b;
  }

  /** The sizes of a complete group add up to its header plus four; in
      particular the header did not overflow 32 bits. */
  lemma CompleteGroupSize(plains: seq<seq<byte>>, g: Group)
    requires IsGroup(plains, g) && g.complete
    ensures Size(plains, g.first, g.end) == BeVal(plains[g.first][..4]) + 4
  {
    SizeOne(plains, g.first);
    SizeMonotone(plains, g.first, g.first + 1, g.end);
    HeaderBound(plains[g.first]);
  }

  lemma HeaderBound(p: seq<byte>)
    requires |p| >= 6
    ensures BeVal(p[..4]) < 0x1_0000_0000
  {
    BeValBound(p[..4]);
    assert Pow256(2) == 0x1_0000;
    assert Pow256(4) == 256 * (256 * Pow256(2));
  }

  /** The range of a message, its type and the chunks it spans. */
  ghost predicate IsPeerMessage(cs: seq<Chunk>, m: Message) {
    && 3 <= m.first < m.end <= |cs|
    && |cs[m.first].plain| >= 6
    && m.ty == P2p(KindFromTag(BeVal(cs[m.first].plain[4..6])))
    && Size(Plains(cs), m.first, m.end) == BeVal(cs[m.first].plain[..4]) + 4
  }

  ghost predicate Ordered(ms: seq<Message>) {
    forall i, j :: 0 <= i < j < |ms| ==> ms[i].end <= ms[j].first
  }

  lemma {:induction false} PeersOrdered(env: Env, item: ConnItem, cs: seq<Chunk>, groups: seq<Group>)
    requires Tiled(Plains(cs), groups)
    ensures var ms := Peers(env, item, cs, groups);
            Ordered(ms) && forall i :: 0 <= i < |ms| ==> IsPeerMessage(cs, ms[i]) && ms[i].end <= EndOf(groups)
    decreases |groups|
  {
    if groups != [] {
      var n := |groups| - 1;
      PeersOrdered(env, item, cs, groups[..n]);
      if groups[n].complete {
        CompleteGroupSize(Plains(cs), groups[n]);
      }
    }
  }

  lemma {:induction false} HandshakesAt(env: Env, item: ConnItem, cs: seq<Chunk>)
    ensures var ms := Handshakes(env, item, cs);
            |ms| == (if |cs| < 3 then |cs| else 3) &&
            forall i :: 0 <= i < |ms| ==> ms[i] == HandshakeMessage(env, item, cs[i], i)
    decreases |cs|
  {
    if |cs| > 3 {
      HandshakesAt(env, item, cs[..3]);
    } else if cs != [] {
      HandshakesAt(env, item, cs[..|cs| - 1]);
    }
  }

  /** The messages of a direction: first the connection, metadata and
      acknowledge messages with chunk 0, 1 and 2, as far as there are such
      chunks, then peer messages with ordered, disjoint ranges from 3 up, each
      as long as its header says. */
  lemma RangesOrdered(env: Env, item: ConnItem, cs: seq<Chunk>, groups: seq<Group>)
    requires Understood(Plains(cs), groups)
    ensures var ms := Expected(env, item, cs, groups);
            var k := if |cs| < 3 then |cs| else 3;
            && k <= |ms| && (|cs| < 3 ==> |ms| == k)
            && (forall i :: 0 <= i < k ==> ms[i] == HandshakeMessage(env, item, cs[i], i))
            && (forall i :: k <= i < |ms| ==> IsPeerMessage(cs, ms[i]))
            && Ordered(ms)
  {
    HandshakesAt(env, item, cs);
    PeersOrdered(env, item, cs, groups);
    if |cs| < 3 {
      NoGroupsYet(Plains(cs), groups);
    }
  }

  /** What a message says of its connection: who opened it, the other end, the
      side that sent it, and when its last chunk was handled. */
  predicate RowOf(env: Env, item: ConnItem, sender: Sender, m: Message) {
    && m.cn == item.key && m.initiator == item.initiator && m.remoteAddr == item.remoteAddr && m.sender == sender
    && m.end > 0 && m.timestamp == env.clock(item.key, sender, m.end - 1)
  }

  predicate OfDirection(cs: seq<Chunk>, cn: ConnKey, sender: Sender) {
    forall i :: 0 <= i < |cs| ==> cs[i].cn == cn && cs[i].sender == sender && cs[i].counter == i
  }

  lemma {:induction false} PeerRows(env: Env, item: ConnItem, cs: seq<Chunk>, groups: seq<Group>, sender: Sender)
    requires Tiled(Plains(cs), groups) && OfDirection(cs, item.key, sender)
    ensures forall m :: m in Peers(env, item, cs, groups) ==> RowOf(env, item, sender, m)
    decreases |groups|
  {
    if groups != [] {
      PeerRows(env, item, cs, groups[..|groups| - 1], sender);
    }
  }

  /** All messages of a direction say the same. */
  lemma ExpectedRows(env: Env, item: ConnItem, cs: seq<Chunk>, groups: seq<Group>, sender: Sender)
    requires Understood(Plains(cs), groups) && OfDirection(cs, item.key, sender)
    ensures forall m :: m in Expected(env, item, cs, groups) ==> RowOf(env, item, sender, m)
  {
    hide Peers, Handshakes, Understood;
    HandshakesAt(env, item, cs);
    assert Tiled(Plains(cs), groups) by {
      UnderstoodTiles(Plains(cs), groups);
    }
    PeerRows(env, item, cs, groups, sender);
  }

  lemma UnderstoodTiles(plains: seq<seq<byte>>, groups: seq<Group>)
    requires Understood(plains, groups)
    ensures Tiled(plains, groups)
  {
  }

  predicate InMessage(ms: seq<Message>, i: nat) {
    exists j :: 0 <= j < |ms| && ms[j].first <= i < ms[j].end
  }

  /** Chunk `i` belongs to a group whose chunks overran the declared size. */
  ghost predicate InOverrun(plains: seq<seq<byte>>, groups: seq<Group>, i: nat) {
    exists k :: 0 <= k < |groups| && IsGroup(plains, groups[k]) && groups[k].first <= i < groups[k].end &&
                Size(plains, groups[k].first, groups[k].end) > Declared(plains[groups[k].first])
  }

  lemma InOverrunMore(plains: seq<seq<byte>>, groups: seq<Group>, g: Group, i: nat)
    requires InOverrun(plains, groups, i)
    ensures InOverrun(plains, groups + [g], i)
  {
    hide Size, Declared;
    var k :| 0 <= k < |groups| && IsGroup(plains, groups[k]) && groups[k].first <= i < groups[k].end &&
             Size(plains, groups[k].first, groups[k].end) > Declared(plains[groups[k].first]);
    assert (groups + [g])[k] == groups[k];
  }

  lemma InMessageMore(ms: seq<Message>, more: seq<Message>, i: nat)
    requires InMessage(ms, i)
    ensures InMessage(ms + more, i)
  {
    var j :| 0 <= j < |ms| && ms[j].first <= i < ms[j].end;
    assert (ms + more)[j] == ms[j];
  }

  /** A peer chunk before the open end that is in no message belongs to a group
      that overran its declared size: gaps have no other cause. */
  lemma {:induction false} GapsAreOverruns(env: Env, item: ConnItem, cs: seq<Chunk>, groups: seq<Group>, i: nat)
    requires Tiled(Plains(cs), groups) && 3 <= i < EndOf(groups)
    ensures InMessage(Peers(env, item, cs, groups), i) || InOverrun(Plains(cs), groups, i)
    decreases |groups|
  {
    hide Declared, BeVal, KindFromTag, InMessage, InOverrun;
    var n := |groups| - 1;
    var init, g := groups[..n], groups[n];
    assert groups == init + [g];
    if i < g.first {
      GapsAreOverruns(env, item, cs, init, i);
      if InMessage(Peers(env, item, cs, init), i) {
        InMessageMore(Peers(env, item, cs, init), Peers(env, item, cs, groups)[|Peers(env, item, cs, init)|..], i);
      } else {
        InOverrunMore(Plains(cs), init, g, i);
      }
    } else if g.complete {
      LastMessage(Peers(env, item, cs, groups), i);
    } else {
      LastOverrun(Plains(cs), groups, i);
    }
  }

  lemma LastMessage(ms: seq<Message>, i: nat)
    requires ms != [] && ms[|ms| - 1].first <= i < ms[|ms| - 1].end
    ensures InMessage(ms, i)
  {
  }

  lemma LastOverrun(plains: seq<seq<byte>>, groups: seq<Group>, i: nat)
    requires groups != []
    requires var g := groups[|groups| - 1]; IsGroup(plains, g) && !g.complete && g.first <= i < g.end
    ensures InOverrun(plains, groups, i)
  {
    hide Size, Declared;
  }
}
