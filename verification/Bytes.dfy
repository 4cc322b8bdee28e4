/** Bytes, big-endian numbers and the byte-wise order of RocksDB keys. */
module Wrappers {
  datatype Option<+T> = None | Some(value: T)
}

module Bytes {
  type byte = b: int | 0 <= b < 256

  /** The number whose big-endian representation is `s` (`from_be_bytes`). */
  function BeVal(s: seq<byte>): nat {
    if s == [] then 0 else BeVal(s[..|s| - 1]) * 256 + s[|s| - 1]
  }

  /** The low `width` bytes of `v`, most significant first (`to_be_bytes`). */
  function BeBytes(v: nat, width: nat): (s: seq<byte>)
    ensures |s| == width
  {
    if width == 0 then [] else BeBytes(v / 256, width - 1) + [v % 256]
  }

  function Pow256(n: nat): (p: nat)
    ensures p >= 1
  {
    if n == 0 then 1 else 256 * Pow256(n - 1)
  }

  /** Concatenation of a list of byte strings. */
  function Flatten(parts: seq<seq<byte>>): seq<byte> {
    if parts == [] then [] else parts[0] + Flatten(parts[1..])
  }

  lemma {:induction false} FlattenAppend(a: seq<seq<byte>>, b: seq<seq<byte>>)
    ensures Flatten(a + b) == Flatten(a) + Flatten(b)
  {
    if a == [] {
      assert a + b == b;
    } else {
      assert (a + b)[1..] == a[1..] + b;
      FlattenAppend(a[1..], b);
    }
  }

  // ---------------------------------------------------------------- numbers

  lemma {:induction false} BeValBound(s: seq<byte>)
    ensures BeVal(s) < Pow256(|s|)
  {
    if s != [] {
      BeValBound(s[..|s| - 1]);
    }
  }

  lemma Times256(x: nat, n: nat)
    ensures (x * Pow256(n)) * 256 == x * Pow256(n + 1)
  {
  }

  /** Peeling off the most significant byte. */
  lemma {:induction false} BeValHead(s: seq<byte>)
    requires s != []
    ensures BeVal(s) == s[0] as int * Pow256(|s| - 1) + BeVal(s[1..])
  {
    if |s| > 1 {
      var init := s[..|s| - 1];
      BeValHead(init);
      assert s[1..][..|s| - 2] == init[1..];
      assert BeVal(s[1..]) == BeVal(init[1..]) * 256 + s[|s| - 1];
      Times256(init[0], |s| - 2);
    }
  }

  /** Encoding in `width` bytes and decoding keeps the value modulo 256^width. */
  lemma {:induction false} BeRoundTrip(v: nat, width: nat)
    ensures BeVal(BeBytes(v, width)) == v % Pow256(width)
  {
    if width > 0 {
      BeRoundTrip(v / 256, width - 1);
      var s := BeBytes(v, width);
      assert s[..width - 1] == BeBytes(v / 256, width - 1);
      ModStep(v, Pow256(width - 1));
    }
  }

  lemma ModStep(v: nat, p: nat)
    requires p > 0
    ensures v % (256 * p) == (v / 256) % p * 256 + v % 256
  {
    var q, r := v / 256 / p, (v / 256) % p;
    assert v / 256 == q * p + r;
    assert v == (256 * p) * q + (r * 256 + v % 256);
    ModUnique(v, 256 * p, q, r * 256 + v % 256);
  }

  lemma MulFar(m: nat, d: int)
    ensures d > 0 ==> m * d >= m
    ensures d < 0 ==> m * d + m <= 0
  {
    if d > 0 {
      var e: nat := d - 1;
      assert m * d == m * e + m;
    } else if d < 0 {
      var e: nat := -d - 1;
      assert m * d + m + m * e == 0;
    }
  }

  lemma ModUnique(v: nat, m: nat, q: nat, r: nat)
    requires m > 0 && r < m && v == m * q + r
    ensures v % m == r && v / m == q
  {
    var q', r' := v / m, v % m;
    assert v == m * q' + r';
    var d := q - q';
    assert m * d == r' - r;
    MulFar(m, d);
  }

  /** The low bytes of a wider encoding are the narrower encoding. */
  lemma {:induction false} BeBytesDrop(v: nat, width: nat, k: nat)
    requires k <= width
    ensures BeBytes(v, width)[k..] == BeBytes(v, width - k)
  {
    if k < width {
      BeBytesDrop(v / 256, width - 1, k);
      assert BeBytes(v, width)[k..] == BeBytes(v / 256, width - 1)[k..] + [v % 256];
    }
  }

  // ---------------------------------------------------------------- key order

  /** RocksDB's default key order: byte-wise, shorter first. */
  predicate Less(a: seq<byte>, b: seq<byte>) {
    if b == [] then false
    else if a == [] then true
    else if a[0] != b[0] then a[0] < b[0]
    else Less(a[1..], b[1..])
  }

  lemma {:induction false} LessTotal(a: seq<byte>, b: seq<byte>)
    ensures Less(a, b) || a == b || Less(b, a)
    ensures !(Less(a, b) && Less(b, a)) && !Less(a, a)
  {
    if a != [] && b != [] && a[0] == b[0] {
      LessTotal(a[1..], b[1..]);
      LessTotal(a[1..], a[1..]);
      assert a == [a[0]] + a[1..] && b == [b[0]] + b[1..];
    } else if a != [] {
      LessTotal(a[1..], a[1..]);
    }
  }

  lemma {:induction false} LessTrans(a: seq<byte>, b: seq<byte>, c: seq<byte>)
    requires Less(a, b) && Less(b, c)
    ensures Less(a, c)
  {
    if a != [] && a[0] == b[0] == c[0] {
      LessTrans(a[1..], b[1..], c[1..]);
    }
  }

  /** A shared prefix does not matter ... */
  lemma {:induction false} LessPrefix(p: seq<byte>, a: seq<byte>, b: seq<byte>)
    ensures Less(p + a, p + b) == Less(a, b)
  {
    if p == [] {
      assert p + a == a && p + b == b;
    } else {
      LessPrefix(p[1..], a, b);
      assert (p + a)[1..] == p[1..] + a && (p + b)[1..] == p[1..] + b;
    }
  }

  /** ... and two different prefixes of the same length decide. */
  lemma {:induction false} LessByPrefix(p: seq<byte>, q: seq<byte>, a: seq<byte>, b: seq<byte>)
    requires |p| == |q| && p != q
    ensures Less(p + a, q + b) == Less(p, q)
  {
    assert p == [p[0]] + p[1..] && q == [q[0]] + q[1..];
    if p[0] == q[0] {
      LessByPrefix(p[1..], q[1..], a, b);
      assert (p + a)[1..] == p[1..] + a && (q + b)[1..] == q[1..] + b;
    }
  }

  /** On strings of one length the byte order is the numeric order. */
  lemma {:induction false} LessIsNumeric(a: seq<byte>, b: seq<byte>)
    requires |a| == |b|
    ensures Less(a, b) <==> BeVal(a) < BeVal(b)
  {
    if a != [] {
      BeValHead(a);
      BeValHead(b);
      BeValBound(a[1..]);
      BeValBound(b[1..]);
      var p := Pow256(|a| - 1);
      if a[0] < b[0] {
        MulGap(a[0], b[0], p);
      } else if b[0] < a[0] {
        MulGap(b[0], a[0], p);
      } else {
        LessIsNumeric(a[1..], b[1..]);
      }
    }
  }

  lemma MulGap(x: int, y: int, p: nat)
    requires x < y
    ensures x * p + p <= y * p
  {
    var d: nat := y - x - 1;
    assert y * p == (x + 1 + d) * p == x * p + p + d * p;
  }
}
