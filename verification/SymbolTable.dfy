/** Looking up the symbol that covers an address, by halving steps over a table
    sorted by start. */
module SymbolTable {
  import opened Wrappers
  import opened Bytes

  datatype Symbol = Symbol(start: nat, end: nat)

  predicate Covers(s: Symbol, offset: nat) {
    s.start <= offset < s.end
  }

  /** Loading a table sorts it by start. */
  predicate Sorted(table: seq<Symbol>) {
    forall i, j :: 0 <= i < j < |table| ==> table[i].start <= table[j].start
  }

  /** Each range ends no later than the next begins. */
  predicate NoOverlap(table: seq<Symbol>) {
    forall i :: 0 <= i < |table| - 1 ==> table[i].start <= table[i].end <= table[i + 1].start
  }

  // ---------------------------------------------------------------- powers of two

  predicate PowerOfTwo(h: nat) {
    h == 1 || (h > 1 && h % 2 == 0 && PowerOfTwo(h / 2))
  }

  lemma {:induction false} PowersApart(a: nat, b: nat)
    requires PowerOfTwo(a) && PowerOfTwo(b) && a < b
    ensures 2 * a <= b
  {
    if a > 1 {
      PowersApart(a / 2, b / 2);
    }
  }

  /** The greatest power of two that is not above `n`. */
  function TopBit(n: nat): (p: nat)
    requires n >= 1
    ensures PowerOfTwo(p) && p <= n < 2 * p
  {
    if n == 1 then 1 else 2 * TopBit(n / 2)
  }

  /** The greatest power of two that divides `k`. */
  function LowBit(k: nat): (h: nat)
    requires k >= 1
    ensures PowerOfTwo(h) && h <= k
  {
    if k % 2 == 1 then 1 else 2 * LowBit(k / 2)
  }

  /** The number of halvings, `floor(log2 n)`. */
  function Log2(n: nat): nat
    requires n >= 1
  {
    if n == 1 then 0 else 1 + Log2(n / 2)
  }

  lemma {:induction false} LowBitIs(k: nat) returns (a: nat)
    requires k >= 1
    ensures k == (2 * a + 1) * LowBit(k)
  {
    if k % 2 == 1 {
      a := k / 2;
    } else {
      a := LowBitIs(k / 2);
    }
  }

  lemma {:induction false} LogOfTop(n: nat)
    requires n >= 1
    ensures Log2(TopBit(n)) == Log2(n)
  {
    if n > 1 {
      LogOfTop(n / 2);
    }
  }

  /** Windows of width `2h` around the odd multiples of `h` do not overlap. */
  lemma OneWindow(a: nat, b: nat, h: nat, m: nat)
    requires h > 0
    requires (2 * a + 1) * h < m + h && m <= (2 * a + 1) * h + h
    requires (2 * b + 1) * h < m + h && m <= (2 * b + 1) * h + h
    ensures a == b
  {
    OddTimes(a, h);
    OddTimes(b, h);
    if a < b {
      MulGap(a, b, h);
    } else if b < a {
      MulGap(b, a, h);
    }
  }

  lemma OddTimes(a: nat, h: nat)
    ensures (2 * a + 1) * h == 2 * (a * h) + h
  {
  }

  // ---------------------------------------------------------------- what can be found

  /** How many entries begin at or below the offset. */
  function Rank(table: seq<Symbol>, offset: nat): (m: nat)
    ensures m <= |table|
  {
    if table == [] then 0
    else if table[|table| - 1].start <= offset then |table|
    else Rank(table[..|table| - 1], offset)
  }

  lemma {:induction false} RankIs(table: seq<Symbol>, offset: nat)
    requires Sorted(table)
    ensures forall i :: 0 <= i < |table| ==> (table[i].start <= offset <==> i < Rank(table, offset))
    decreases |table|
  {
    if table != [] && table[|table| - 1].start > offset {
      var front := table[..|table| - 1];
      RankIs(front, offset);
      assert forall i :: 0 <= i < |front| ==> front[i] == table[i];
    }
  }

  /** The search probes entry `k` before it moves on to the entries behind it
      exactly when the entry one lowest bit further begins beyond the offset. */
  predicate OnPath(table: seq<Symbol>, offset: nat, k: nat)
    requires 1 <= k
  {
    k + LowBit(k) >= |table| || table[k + LowBit(k)].start > offset
  }

  /** An entry that covers the offset and lies on the path of the search. */
  predicate Findable(table: seq<Symbol>, offset: nat, k: nat) {
    1 <= k < |table| && Covers(table[k], offset) && OnPath(table, offset, k)
  }

  lemma FindableRank(table: seq<Symbol>, offset: nat, k: nat)
    requires Sorted(table) && Findable(table, offset, k)
    ensures k < Rank(table, offset) <= k + LowBit(k)
  {
    RankIs(table, offset);
  }

  /** The search is at `pos`, an odd multiple of `h`, the rank is in its window
      and no findable entry is at a coarser step. */
  ghost predicate Searching(table: seq<Symbol>, offset: nat, h: nat, pos: nat, a: nat) {
    && PowerOfTwo(h) && pos == (2 * a + 1) * h
    && (pos - h < Rank(table, offset) || pos == h) && Rank(table, offset) <= pos + h
    && forall k :: Findable(table, offset, k) ==> LowBit(k) <= h
  }

  lemma AtStart(table: seq<Symbol>, offset: nat)
    requires Sorted(table) && table != []
    ensures Searching(table, offset, TopBit(|table|), TopBit(|table|), 0)
  {
    var h := TopBit(|table|);
    forall k | Findable(table, offset, k) ensures LowBit(k) <= h {
      if LowBit(k) > h {
        PowersApart(h, LowBit(k));
      }
    }
  }

  /** A findable entry at the present step is the one being probed. */
  lemma ProbedHere(table: seq<Symbol>, offset: nat, h: nat, pos: nat, a: nat, k: nat)
    requires Sorted(table) && Searching(table, offset, h, pos, a)
    requires Findable(table, offset, k) && LowBit(k) == h
    ensures k == pos
  {
    FindableRank(table, offset, k);
    var b := LowBitIs(k);
    OneWindow(a, b, h, Rank(table, offset));
  }

  /** Nothing found at this step: the search goes on with half the step. */
  lemma Halve(table: seq<Symbol>, offset: nat, h: nat, pos: nat, a: nat, up: bool) returns (a': nat)
    requires Sorted(table) && Searching(table, offset, h, pos, a) && h > 1
    requires pos >= |table| || !Covers(table[pos], offset)
    requires up <==> pos < |table| && table[pos].start <= offset
    ensures pos >= h / 2
    ensures Searching(table, offset, h / 2, if up then pos + h / 2 else pos - h / 2, a')
  {
    var g := h / 2;
    assert h == 2 * g;
    RankIs(table, offset);
    a' := if up then 2 * a + 1 else 2 * a;
    HalfSteps(a, g);
    forall k | Findable(table, offset, k) ensures LowBit(k) <= g {
      NotHere(table, offset, h, pos, a, k);
    }
  }

  lemma HalfSteps(a: nat, g: nat)
    ensures (2 * a + 1) * (2 * g) + g == (2 * (2 * a + 1) + 1) * g
    ensures (2 * a + 1) * (2 * g) - g == (2 * (2 * a) + 1) * g
    ensures (2 * a + 1) * (2 * g) >= 2 * g
  {
    assert (2 * a + 1) * (2 * g) == (4 * a + 2) * g;
  }

  lemma NotHere(table: seq<Symbol>, offset: nat, h: nat, pos: nat, a: nat, k: nat)
    requires Sorted(table) && Searching(table, offset, h, pos, a) && h > 1 && Findable(table, offset, k)
    requires pos >= |table| || !Covers(table[pos], offset)
    ensures LowBit(k) <= h / 2
  {
    if LowBit(k) == h {
      ProbedHere(table, offset, h, pos, a, k);
    } else {
      PowersApart(LowBit(k), h);
    }
  }

  /** At the finest step nothing is left. */
  lemma Exhausted(table: seq<Symbol>, offset: nat, pos: nat, a: nat, k: nat)
    requires Sorted(table) && Searching(table, offset, 1, pos, a)
    requires pos >= |table| || !Covers(table[pos], offset)
    ensures !Findable(table, offset, k)
  {
    if Findable(table, offset, k) {
      ProbedHere(table, offset, 1, pos, a, k);
    }
  }

  /** `find`, up to the name of the symbol found: an entry exactly when one that
      covers the offset lies on the path, after `floor(log2 n) + 1` probes. */
  method Find(table: seq<Symbol>, offset: nat) returns (found: Option<nat>, probes: nat)
    requires Sorted(table)
    ensures found.Some? ==> Findable(table, offset, found.value)
    ensures found.None? ==> forall k :: !Findable(table, offset, k)
    ensures table == [] ==> probes == 0
    ensures table != [] ==> probes <= Log2(|table|) + 1 && (found.None? ==> probes == Log2(|table|) + 1)
  {
    hide Rank, TopBit, LowBit;
    probes := 0;
    if |table| == 0 {
      return None, probes;
    }
    var length := TopBit(|table|);
    var pos: nat := length;
    ghost var h, a := length, 0;
    AtStart(table, offset);
    LogOfTop(|table|);
    while length > 0
      invariant length > 0 ==> h == length && Searching(table, offset, length, pos, a)
      invariant length > 0 ==> probes + Log2(length) == Log2(|table|)
      invariant length == 0 ==> probes == Log2(|table|) + 1 && forall k :: !Findable(table, offset, k)
    {
      ghost var was := pos;
      length := length / 2;
      probes := probes + 1;
      if pos < |table| && Covers(table[pos], offset) {
        CoveredIsFindable(table, offset, h, pos, a);
        return Some(pos), probes;
      }
      var up := pos < |table| && table[pos].start <= offset;
      if h > 1 {
        a := Halve(table, offset, h, was, a, up);
      } else {
        forall k ensures !Findable(table, offset, k) {
          Exhausted(table, offset, was, a, k);
        }
      }
      h := length;
      pos := if up then pos + length else pos - length;
    }
    found := None;
  }

  /** What is probed and covers the offset is findable. */
  lemma CoveredIsFindable(table: seq<Symbol>, offset: nat, h: nat, pos: nat, a: nat)
    requires Sorted(table) && Searching(table, offset, h, pos, a) && pos < |table| && Covers(table[pos], offset)
    ensures Findable(table, offset, pos)
  {
    OddMultiple(a, h);
    RankIs(table, offset);
  }

  lemma TwiceTimes(x: nat, g: nat)
    ensures x * (2 * g) == 2 * (x * g)
  {
  }

  lemma {:induction false} OddMultiple(a: nat, h: nat)
    requires PowerOfTwo(h)
    ensures (2 * a + 1) * h >= 1 && LowBit((2 * a + 1) * h) == h
  {
    if h > 1 {
      OddMultiple(a, h / 2);
      TwiceTimes(2 * a + 1, h / 2);
    }
  }

  /** In a table without overlaps an entry is found exactly when one other than
      the first covers the offset; it is the only one. */
  lemma NoOverlapFindable(table: seq<Symbol>, offset: nat, k: nat)
    requires Sorted(table) && NoOverlap(table) && 1 <= k < |table|
    ensures Findable(table, offset, k) <==> Covers(table[k], offset)
    ensures Covers(table[k], offset) ==> forall j :: 0 <= j < |table| && Covers(table[j], offset) ==> j == k
  {
    if k + LowBit(k) < |table| {
      assert table[k].end <= table[k + 1].start <= table[k + LowBit(k)].start;
    }
    forall j | 0 <= j < |table| && j != k ensures table[j].end <= table[k].start || table[k].end <= table[j].start {
      EndsBefore(table, if j < k then j else k, if j < k then k else j);
    }
  }

  lemma EndsBefore(table: seq<Symbol>, i: nat, j: nat)
    requires Sorted(table) && NoOverlap(table) && i < j < |table|
    ensures table[i].end <= table[j].start
  {
    assert table[i].end <= table[i + 1].start <= table[j].start;
  }

  /** The first entry is never probed, and where ranges overlap a covering entry
      can be passed over. */
  lemma Misses()
    ensures var table := [Symbol(0, 10)]; Sorted(table) && Covers(table[0], 5) && forall k :: !Findable(table, 5, k)
    ensures var table := [Symbol(0, 0), Symbol(1, 9), Symbol(2, 3)];
            Sorted(table) && Covers(table[1], 5) && forall k :: !Findable(table, 5, k)
  {
    var table := [Symbol(0, 0), Symbol(1, 9), Symbol(2, 3)];
    assert LowBit(1) == 1 && table[2].start <= 5;
  }

  /** So the search comes back with nothing, though an entry covers the offset. */
  method SearchMisses() returns (first: Option<nat>, passed: Option<nat>)
    ensures first == None && passed == None
  {
    hide Findable, Sorted, Covers;
    Misses();
    var n;
    first, n := Find([Symbol(0, 10)], 5);
    passed, n := Find([Symbol(0, 0), Symbol(1, 9), Symbol(2, 3)], 5);
  }
}
