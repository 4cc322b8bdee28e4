/** Iterating a secondary index from a cursor within one prefix yields the ids
    of the matching messages in order. */
module IndexScans {
  import opened Bytes
  import opened Common
  import opened IndexKeys
  import opened Store
  import opened SortedIntersection

  predicate KeyBefore(forward: bool, a: Key, b: Key) {
    if forward then Less(a, b) else Less(b, a)
  }

  /** `k` is `start` or comes after it. */
  predicate From(forward: bool, start: Key, k: Key) {
    k == start || KeyBefore(forward, start, k)
  }

  predicate SamePrefix(a: Key, b: Key, len: nat) {
    |a| >= len && |b| >= len && a[..len] == b[..len]
  }

  /** What a prefix-bounded iterator delivers: the keys from `start` on that
      share its prefix, in key order. */
  ghost predicate IsScan(keys: set<Key>, start: Key, forward: bool, len: nat, ks: seq<Key>) {
    && (forall i, j :: 0 <= i < j < |ks| ==> KeyBefore(forward, ks[i], ks[j]))
    && (forall k :: k in ks <==> k in keys && From(forward, start, k) && SamePrefix(start, k, len))
  }

  lemma KeyOrder(forward: bool, a: Key, b: Key)
    ensures KeyBefore(forward, a, b) || a == b || KeyBefore(forward, b, a)
    ensures !(KeyBefore(forward, a, b) && KeyBefore(forward, b, a)) && !KeyBefore(forward, a, a)
  {
    LessTotal(a, b);
    LessTotal(a, a);
  }

  lemma KeyTrans(forward: bool, a: Key, b: Key, c: Key)
    requires KeyBefore(forward, a, b) && KeyBefore(forward, b, c)
    ensures KeyBefore(forward, a, c)
  {
    if forward {
      LessTrans(a, b, c);
    } else {
      LessTrans(c, b, a);
    }
  }

  /** Keys of one prefix are contiguous: once the iterator meets another
      prefix, the one it started in does not come back. */
  lemma PrefixContiguous(forward: bool, start: Key, e: Key, k: Key, len: nat)
    requires From(forward, start, e) && KeyBefore(forward, e, k) && |e| >= len
    requires SamePrefix(start, k, len)
    ensures SamePrefix(start, e, len)
  {
    var p, q := start[..len], e[..len];
    if p != q {
      assert start == p + start[len..] && e == q + e[len..] && k == p + k[len..];
      LessByPrefix(p, q, start[len..], e[len..]);
      LessByPrefix(q, p, e[len..], k[len..]);
      LessByPrefix(q, p, e[len..], start[len..]);
      LessByPrefix(p, q, k[len..], e[len..]);
      LessTotal(p, q);
    }
  }

  /** The first of some keys in the direction of iteration. */
  method FirstKey(keys: set<Key>, forward: bool) returns (first: Key)
    requires keys != {}
    ensures first in keys && forall k :: k in keys && k != first ==> KeyBefore(forward, first, k)
  {
    first :| first in keys;
    var left := keys - {first};
    while left != {}
      invariant first in keys && left <= keys && first !in left
      invariant forall k :: k in keys - left && k != first ==> KeyBefore(forward, first, k)
      decreases left
    {
      var k :| k in left;
      KeyOrder(forward, first, k);
      if KeyBefore(forward, k, first) {
        forall j | j in keys - left && j != k ensures KeyBefore(forward, k, j) {
          if j != first {
            KeyTrans(forward, k, first, j);
          }
        }
        first := k;
      }
      left := left - {k};
    }
  }

  /** An iterator in the manner of the key-value store: seek, then step until
      the table ends or the prefix changes. */
  method Scan(keys: set<Key>, start: Key, forward: bool, len: nat) returns (ks: seq<Key>)
    requires |start| >= len && forall k :: k in keys ==> |k| >= len
    ensures IsScan(keys, start, forward, len, ks)
  {
    ks := [];
    var left := set k | k in keys && From(forward, start, k);
    while left != {}
      invariant left <= keys && forall k :: k in left ==> From(forward, start, k)
      invariant forall i, j :: 0 <= i < j < |ks| ==> KeyBefore(forward, ks[i], ks[j])
      invariant forall i, k :: 0 <= i < |ks| && k in left ==> KeyBefore(forward, ks[i], k)
      invariant forall k :: k in ks ==> k in keys && From(forward, start, k) && SamePrefix(start, k, len)
      invariant forall k :: k in keys && From(forward, start, k) ==> k in left || k in ks
      decreases left
    {
      var e := FirstKey(left, forward);
      if !SamePrefix(start, e, len) {
        forall k | k in left ensures !SamePrefix(start, k, len) {
          if k != e && SamePrefix(start, k, len) {
            PrefixContiguous(forward, start, e, k, len);
          }
        }
        return;
      }
      ks := ks + [e];
      left := left - {e};
    }
  }

  // ---------------------------------------------------------------- ids

  /** Keys made of a fixed-width prefix and the id in `width` bytes. */
  function RowKey(prefix: Key, id: nat, width: nat): Key {
    prefix + BeBytes(id, width)
  }

  /** The id read back from the last `width` bytes. */
  function IdOf(k: Key, width: nat): nat {
    if |k| >= width then BeVal(k[|k| - width..]) else 0
  }

  lemma RowOrder(prefix: Key, i: nat, j: nat, width: nat, forward: bool)
    requires i < Pow256(width) && j < Pow256(width)
    ensures KeyBefore(forward, RowKey(prefix, i, width), RowKey(prefix, j, width)) <==> Before(forward, i, j)
    ensures IdOf(RowKey(prefix, i, width), width) == i
  {
    var a, b := BeBytes(i, width), BeBytes(j, width);
    LessPrefix(prefix, a, b);
    LessPrefix(prefix, b, a);
    LessIsNumeric(a, b);
    LessIsNumeric(b, a);
    BeExact(i, width);
    BeExact(j, width);
    assert RowKey(prefix, i, width)[|prefix|..] == a;
  }

  /** The cursor as the index sees it: only its low bytes count. */
  lemma CursorKey(prefix: Key, cursor: nat, width: nat)
    ensures RowKey(prefix, cursor, width) == RowKey(prefix, cursor % Pow256(width), width)
    ensures cursor % Pow256(width) < Pow256(width)
  {
    LowBytesOnly(cursor, width);
  }

  lemma {:induction false} LowBytesOnly(v: nat, width: nat)
    ensures BeBytes(v, width) == BeBytes(v % Pow256(width), width)
  {
    if width > 0 {
      var p := Pow256(width - 1);
      ModStep(v, p);
      var r := v % Pow256(width);
      assert r == (v / 256) % p * 256 + v % 256;
      assert r / 256 == (v / 256) % p && r % 256 == v % 256;
      LowBytesOnly(v / 256, width - 1);
    }
  }

  /** At or behind the cursor. */
  predicate Within(forward: bool, cursor: nat, id: nat) {
    id == cursor || Before(forward, cursor, id)
  }

  /** `ids` are the ids of the messages with the given prefix at or behind the
      cursor, in order. */
  ghost predicate IsIdScan(ms: map<nat, Message>, prefix: Message -> Key, wanted: Key, cursor: nat, forward: bool,
                           ids: seq<nat>)
  {
    && Mono(forward, ids)
    && forall i :: i in ids <==> i in ms && prefix(ms[i]) == wanted && Within(forward, cursor, i)
  }

  function Ids(ks: seq<Key>, width: nat): (ids: seq<nat>)
    ensures |ids| == |ks|
  {
    seq(|ks|, i requires 0 <= i < |ks| => IdOf(ks[i], width))
  }

  /** A key of the table that is delivered is the row of a wanted message. */
  lemma RowFound(ms: map<nat, Message>, prefix: Message -> Key, wanted: Key, cursor: nat, forward: bool,
                 len: nat, width: nat, keys: set<Key>, k: Key) returns (i: nat)
    requires |wanted| == len && (forall m :: |prefix(m)| == len)
    requires (forall i :: i in ms ==> i < Pow256(width)) && cursor < Pow256(width)
    requires keys == (set i | i in ms :: RowKey(prefix(ms[i]), i, width))
    requires k in keys && From(forward, RowKey(wanted, cursor, width), k) &&
             SamePrefix(RowKey(wanted, cursor, width), k, len)
    ensures i in ms && k == RowKey(prefix(ms[i]), i, width) && prefix(ms[i]) == wanted && Within(forward, cursor, i)
    ensures IdOf(k, width) == i
  {
    i :| i in ms && k == RowKey(prefix(ms[i]), i, width);
    assert RowKey(wanted, cursor, width)[..len] == wanted && k[..len] == prefix(ms[i]);
    RowOrder(wanted, cursor, i, width, forward);
    RowOrder(wanted, i, cursor, width, forward);
  }

  /** Scanning the index of the messages' prefixes scans the ids. */
  lemma ScanIsIdScan(ms: map<nat, Message>, prefix: Message -> Key, wanted: Key, cursor: nat, forward: bool,
                     len: nat, width: nat, keys: set<Key>, ks: seq<Key>)
    requires |wanted| == len && (forall m :: |prefix(m)| == len)
    requires (forall i :: i in ms ==> i < Pow256(width)) && cursor < Pow256(width)
    requires keys == (set i | i in ms :: RowKey(prefix(ms[i]), i, width))
    requires IsScan(keys, RowKey(wanted, cursor, width), forward, len, ks)
    ensures IsIdScan(ms, prefix, wanted, cursor, forward, Ids(ks, width))
  {
    hide KeyBefore, IdOf, RowKey, From, SamePrefix;
    var start, ids := RowKey(wanted, cursor, width), Ids(ks, width);
    forall x, y | 0 <= x < y < |ids| ensures Before(forward, ids[x], ids[y]) {
      assert ks[x] in ks && ks[y] in ks;
      var i := RowFound(ms, prefix, wanted, cursor, forward, len, width, keys, ks[x]);
      var j := RowFound(ms, prefix, wanted, cursor, forward, len, width, keys, ks[y]);
      RowOrder(wanted, i, j, width, forward);
    }
    forall i | i in ids ensures i in ms && prefix(ms[i]) == wanted && Within(forward, cursor, i) {
      var x :| 0 <= x < |ids| && ids[x] == i;
      assert ks[x] in ks;
      var j := RowFound(ms, prefix, wanted, cursor, forward, len, width, keys, ks[x]);
    }
    forall i | i in ms && prefix(ms[i]) == wanted && Within(forward, cursor, i) ensures i in ids {
      var k := RowKey(wanted, i, width);
      RowDelivered(ms, wanted, cursor, forward, len, width, i);
      assert k in keys;
      assert k in ks;
      var x :| 0 <= x < |ks| && ks[x] == k;
      RowOrder(wanted, i, cursor, width, forward);
      assert ids[x] == i;
    }
  }

  lemma RowDelivered(ms: map<nat, Message>, wanted: Key, cursor: nat, forward: bool, len: nat, width: nat, i: nat)
    requires |wanted| == len && i < Pow256(width) && cursor < Pow256(width) && Within(forward, cursor, i)
    ensures From(forward, RowKey(wanted, cursor, width), RowKey(wanted, i, width))
    ensures SamePrefix(RowKey(wanted, cursor, width), RowKey(wanted, i, width), len)
  {
    RowOrder(wanted, cursor, i, width, forward);
  }
}
