/** Naming a code address: the executable mapped there, the offset in it, and
    the function its symbol table finds. */
module StackResolving {
  import opened Wrappers

  const ADDRESSES := 0x1_0000_0000_0000_0000
  const OFFSETS := 0x1_0000_0000

  /** A line of `/proc/<pid>/maps`; `file` is the path, where it names a file. */
  datatype MapEntry = MapEntry(start: nat, end: nat, exec: bool, offset: nat, file: Option<string>)

  /** What is shown of an address. */
  datatype SymbolInfo = SymbolInfo(offset: nat, executable: string, routine: Option<string>, category: string)

  /** The memory map, the symbol lookup of every file whose symbols are loaded,
      demangling, and the test for a mangled Rust name. */
  datatype StackResolver = StackResolver(
    entries: seq<MapEntry>,
    files: map<string, nat -> Option<string>>,
    demangle: string -> string,
    isRust: string -> bool)

  predicate Contains(e: MapEntry, ip: nat) {
    e.start <= ip < e.end
  }

  /** An entry that an address can be resolved through. */
  predicate Code(e: MapEntry) {
    e.exec && e.file.Some?
  }

  function OffsetIn(e: MapEntry, ip: nat): nat
    requires Contains(e, ip)
  {
    (e.offset + (ip - e.start)) % ADDRESSES
  }

  /** `ProcessMap::find`: the first executable entry with a file that contains
      the address; the others are skipped. */
  function Find(entries: seq<MapEntry>, ip: nat): (r: Option<(string, nat)>)
  {
    if entries == [] then None
    else if Contains(entries[0], ip) && Code(entries[0]) then Some((entries[0].file.value, OffsetIn(entries[0], ip)))
    else Find(entries[1..], ip)
  }

  /** The part of a path behind its last slash. */
  function BaseName(path: string): string {
    if path == [] then []
    else if path[|path| - 1] == '/' then []
    else BaseName(path[..|path| - 1]) + [path[|path| - 1]]
  }

  /** It is free of slashes, and what precedes it is empty or ends in one. */
  lemma {:induction false} BaseNameIs(path: string)
    ensures |BaseName(path)| <= |path| && '/' !in BaseName(path)
    ensures var n := |path| - |BaseName(path)|; path[n..] == BaseName(path) && (n > 0 ==> path[n - 1] == '/')
    decreases |path|
  {
    if path != [] && path[|path| - 1] != '/' {
      BaseNameIs(path[..|path| - 1]);
    }
  }

  function Category(executable: string, routine: Option<string>, isRust: string -> bool): string {
    if executable == "light-node" then
      if routine.Some? && isRust(routine.value) then "nodeRust" else "nodeCpp"
    else "systemLib"
  }

  /** The file and the offset in it, when its symbols are loaded. */
  function Located(s: StackResolver, ip: nat): Option<(string, nat)> {
    var found := Find(s.entries, ip);
    if found.Some? && found.value.0 in s.files then found else None
  }

  function Demangled(s: StackResolver, routine: Option<string>): Option<string> {
    match routine
    case None => None
    case Some(n) => Some(s.demangle(n))
  }

  /** `resolve`. */
  function Resolve(s: StackResolver, ip: nat): Option<SymbolInfo> {
    match Located(s, ip)
    case None => None
    case Some((file, offset)) =>
      var executable, routine := BaseName(file), s.files[file](offset);
      Some(SymbolInfo(offset % OFFSETS, executable, Demangled(s, routine), Category(executable, routine, s.isRust)))
  }

  /** What is shown of an address: the node's own code is Rust or C++, all other
      code belongs to a system library. */
  lemma ResolveIs(s: StackResolver, ip: nat)
    ensures match Find(s.entries, ip)
            case None => Resolve(s, ip) == None
            case Some((file, offset)) =>
              if file !in s.files then Resolve(s, ip) == None
              else
                var raw := s.files[file](offset);
                && Resolve(s, ip).Some?
                && var r := Resolve(s, ip).value;
                   && r.offset == offset % 0x1_0000_0000 && r.executable == BaseName(file)
                   && (r.routine.Some? <==> raw.Some?) && (raw.Some? ==> r.routine.value == s.demangle(raw.value))
                   && (r.category == "systemLib" <==> BaseName(file) != "light-node")
                   && (r.category == "nodeRust" <==>
                       BaseName(file) == "light-node" && raw.Some? && s.isRust(raw.value))
                   && (r.category == "nodeCpp" <==>
                       BaseName(file) == "light-node" && !(raw.Some? && s.isRust(raw.value)))
  {
    assert "nodeRust"[0] != "systemLib"[0] && "nodeCpp"[0] != "systemLib"[0] && "nodeRust"[4] != "nodeCpp"[4];
  }

  // ---------------------------------------------------------------- when two addresses get one name

  /** The base name of the file and the low half of the offset: what a name
      keeps of where an address lies. */
  function Place(s: StackResolver, ip: nat): Option<(string, nat)> {
    match Located(s, ip)
    case None => None
    case Some((file, offset)) => Some((BaseName(file), offset % OFFSETS))
  }

  function Routine(s: StackResolver, ip: nat): Option<string> {
    match Located(s, ip)
    case None => None
    case Some((file, offset)) => s.files[file](offset)
  }

  /** Two addresses get one name exactly when they lie at one place and their
      functions read the same and are of one kind. */
  lemma SameNameIff(s: StackResolver, a: nat, b: nat)
    requires Located(s, a).Some? && Located(s, b).Some?
    ensures Resolve(s, a) == Resolve(s, b) <==>
            && Place(s, a) == Place(s, b)
            && Demangled(s, Routine(s, a)) == Demangled(s, Routine(s, b))
            && (Place(s, a).value.0 == "light-node" ==>
                  (Routine(s, a).Some? && s.isRust(Routine(s, a).value) <==>
                   Routine(s, b).Some? && s.isRust(Routine(s, b).value)))
  {
    assert "nodeRust"[4] != "nodeCpp"[4];
  }

  /** In one file, below 4 GiB, the name tells the offset. */
  lemma OneFile(s: StackResolver, a: nat, b: nat)
    requires Located(s, a).Some? && Located(s, b).Some?
    requires Located(s, a).value.0 == Located(s, b).value.0
    requires Located(s, a).value.1 < OFFSETS && Located(s, b).value.1 < OFFSETS
    ensures Resolve(s, a) == Resolve(s, b) <==> Located(s, a).value.1 == Located(s, b).value.1
  {
    SameNameIff(s, a, b);
  }

  // ---------------------------------------------------------------- in terms of the memory map

  predicate Usable(s: StackResolver, i: nat) {
    i < |s.entries| && Code(s.entries[i]) && s.entries[i].file.value in s.files
  }

  /** Byte `x` of entry `i`. */
  predicate Mapped(s: StackResolver, i: nat, x: nat) {
    Usable(s, i) && Contains(s.entries[i], s.entries[i].start + x)
  }

  function Slot(s: StackResolver, i: nat, x: nat): (string, nat)
    requires Mapped(s, i, x)
  {
    (BaseName(s.entries[i].file.value), (s.entries[i].offset + x) % OFFSETS)
  }

  /** As in a real memory map, no address is in two entries. */
  ghost predicate RangesApart(entries: seq<MapEntry>) {
    forall i, j, ip: nat :: 0 <= i < j < |entries| ==> !(Contains(entries[i], ip) && Contains(entries[j], ip))
  }

  /** No two bytes that can be resolved have one base name and one offset modulo
      2^32. */
  ghost predicate MappedOnce(s: StackResolver) {
    forall i, x, j, y :: Mapped(s, i, x) && Mapped(s, j, y) && Slot(s, i, x) == Slot(s, j, y) ==> i == j && x == y
  }

  lemma {:induction false} Found(entries: seq<MapEntry>, ip: nat) returns (i: nat)
    ensures i <= |entries|
    ensures i == |entries| ==> Find(entries, ip) == None
    ensures i < |entries| ==>
              && Contains(entries[i], ip) && Code(entries[i])
              && Find(entries, ip) == Some((entries[i].file.value, OffsetIn(entries[i], ip)))
    ensures forall j :: 0 <= j < i ==> !(Contains(entries[j], ip) && Code(entries[j]))
  {
    if entries == [] || (Contains(entries[0], ip) && Code(entries[0])) {
      i := 0;
    } else {
      i := Found(entries[1..], ip);
      assert forall j :: 0 <= j < |entries[1..]| ==> entries[1..][j] == entries[j + 1];
      i := i + 1;
    }
  }

  lemma LowHalf(e: MapEntry, ip: nat)
    requires Contains(e, ip)
    ensures OffsetIn(e, ip) % OFFSETS == (e.offset + (ip - e.start)) % OFFSETS
  {
    var n := e.offset + (ip - e.start);
    var q := n / ADDRESSES;
    assert n == ADDRESSES * q + n % ADDRESSES;
    assert ADDRESSES == OFFSETS * OFFSETS;
    assert n == n % ADDRESSES + OFFSETS * (OFFSETS * q);
    Multiple(n % ADDRESSES, OFFSETS * q);
  }

  lemma Multiple(n: nat, k: nat)
    ensures (n + OFFSETS * k) % OFFSETS == n % OFFSETS
  {
    var q, r := n / OFFSETS, n % OFFSETS;
    assert n + OFFSETS * k == OFFSETS * (q + k) + r;
  }

  /** A located address is a byte of a usable entry, at that byte's slot. */
  lemma LocatedAt(s: StackResolver, ip: nat) returns (i: nat)
    requires Located(s, ip).Some?
    ensures i < |s.entries| && s.entries[i].start <= ip && Mapped(s, i, ip - s.entries[i].start)
    ensures Place(s, ip) == Some(Slot(s, i, ip - s.entries[i].start))
  {
    i := Found(s.entries, ip);
    LowHalf(s.entries[i], ip);
  }

  /** And with the entries apart every such byte is located. */
  lemma AtLocated(s: StackResolver, i: nat, x: nat)
    requires RangesApart(s.entries) && Mapped(s, i, x)
    ensures Place(s, s.entries[i].start + x) == Some(Slot(s, i, x))
  {
    var ip := s.entries[i].start + x;
    var j := Found(s.entries, ip);
    if j < i {
      assert Contains(s.entries[j], ip) && Contains(s.entries[i], ip);
    }
    LowHalf(s.entries[i], ip);
  }

  /** Places tell all addresses apart exactly when everything is mapped once. */
  lemma PlacesApartIff(s: StackResolver)
    requires RangesApart(s.entries)
    ensures (forall a, b :: Place(s, a).Some? && Place(s, a) == Place(s, b) ==> a == b) <==> MappedOnce(s)
  {
    if MappedOnce(s) {
      forall a, b | Place(s, a).Some? && Place(s, a) == Place(s, b) ensures a == b {
        var i := LocatedAt(s, a);
        var j := LocatedAt(s, b);
      }
    }
    if forall a, b :: Place(s, a).Some? && Place(s, a) == Place(s, b) ==> a == b {
      forall i, x, j, y | Mapped(s, i, x) && Mapped(s, j, y) && Slot(s, i, x) == Slot(s, j, y) ensures i == j && x == y {
        AtLocated(s, i, x);
        AtLocated(s, j, y);
        SameByte(s, i, x, j, y);
      }
    }
  }

  lemma SameByte(s: StackResolver, i: nat, x: nat, j: nat, y: nat)
    requires RangesApart(s.entries) && Mapped(s, i, x) && Mapped(s, j, y)
    requires s.entries[i].start + x == s.entries[j].start + y
    ensures i == j && x == y
  {
    var ip := s.entries[i].start + x;
    assert Contains(s.entries[i], ip) && Contains(s.entries[j], ip);
  }

  /** Within one entry of at most 4 GiB nothing is mapped twice. */
  lemma OneEntryApart(s: StackResolver, i: nat, x: nat, y: nat)
    requires Mapped(s, i, x) && Mapped(s, i, y) && x != y
    requires s.entries[i].end - s.entries[i].start <= OFFSETS
    ensures Slot(s, i, x) != Slot(s, i, y)
  {
    var o := s.entries[i].offset;
    assert (o + x) - (o + y) == OFFSETS * ((o + x) / OFFSETS - (o + y) / OFFSETS) + (o + x) % OFFSETS - (o + y) % OFFSETS;
  }

  /** Nor between entries whose base names differ. */
  lemma FilesApart(s: StackResolver)
    requires forall i: nat :: Usable(s, i) ==> s.entries[i].end - s.entries[i].start <= OFFSETS
    requires forall i: nat, j: nat :: Usable(s, i) && Usable(s, j) && i != j ==>
               BaseName(s.entries[i].file.value) != BaseName(s.entries[j].file.value)
    ensures MappedOnce(s)
  {
    forall i, x, j, y | Mapped(s, i, x) && Mapped(s, j, y) && Slot(s, i, x) == Slot(s, j, y) ensures i == j && x == y {
      if i == j && x != y {
        OneEntryApart(s, i, x, y);
      }
    }
  }
}
