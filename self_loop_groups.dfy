/** Self-loop grouping of the port-aware node size expander (`PortNodeSizeExpanderV2`):
    group keys over an unordered pair of (port, cell) endpoints, the port-to-direction
    tables, and the grouping of a node's self lines by key. */
module SelfLoopGroups {
  import opened Wrappers
  import opened Geometry

  /** The side of the node a loop bulges out of (the LEFT/RIGHT/UP/DOWN constants). */
  datatype Direction = Left | Right | Up | Down

  /** A record-shape cell, by object identity. */
  type CellRef = nat

  /** `FlipShifterStrategy.movePort`: the port seen in the graph's rank direction. */
  type MovePort = (Option<Port>, Rankdir) -> Option<Port>

  // ---------------------------------------------------------------------------------------
  // Group keys

  /** `GroupKey`: the two endpoints of a self line (port and cell at tail and head) and the
      points they are drawn from. */
  datatype GroupKey = GroupKey(tailPort: Option<Port>, headPort: Option<Port>,
                               tailCell: Option<CellRef>, headCell: Option<CellRef>,
                               tailPoint: Point, headPoint: Point)
  {
    /** Both ends name the same cell and the same port. */
    predicate SamePoint() { tailCell == headCell && tailPort == headPort }

    predicate SameCell() { tailCell == headCell }

    predicate HavePortOrCell()
    {
      tailPort.Some? || headPort.Some? || tailCell.Some? || headCell.Some?
    }

    /** The same key with tail and head exchanged. */
    function Swapped(): GroupKey
    {
      GroupKey(headPort, tailPort, headCell, tailCell, headPoint, tailPoint)
    }
  }

  /** `isOnlySameHor`: distinct endpoints on one cell, level with each other (within 0.1)
      but apart horizontally. */
  predicate IsOnlySameHor(k: GroupKey, approx: Approx)
  {
    !k.SamePoint() && k.SameCell() && k.tailPoint != k.headPoint &&
    approx(k.tailPoint.y, k.headPoint.y, 0.1) && !approx(k.tailPoint.x, k.headPoint.x, 0.1)
  }

  /** `isOnlySameVer`: distinct endpoints on one cell, one above the other. It never holds
      together with `isOnlySameHor`, and neither holds for a same-point key or for
      endpoints on different cells. */
  function IsOnlySameVer(k: GroupKey, approx: Approx): (r: bool)
    ensures r ==> !IsOnlySameHor(k, approx)
    ensures k.SamePoint() || !k.SameCell() ==> !r && !IsOnlySameHor(k, approx)
  {
    !k.SamePoint() && k.SameCell() && k.tailPoint != k.headPoint &&
    approx(k.tailPoint.x, k.headPoint.x, 0.1) && !approx(k.tailPoint.y, k.headPoint.y, 0.1)
  }

  /** A port as a number: 0 for no port, 1 to 8 for the eight ports. */
  function PortCode(p: Option<Port>): (c: nat)
    ensures c < 9
  {
    match p
    case None => 0
    case Some(North) => 1
    case Some(NorthEast) => 2
    case Some(East) => 3
    case Some(SouthEast) => 4
    case Some(South) => 5
    case Some(SouthWest) => 6
    case Some(West) => 7
    case Some(NorthWest) => 8
  }

  /** One end of a self line, its port and its cell, as a number. */
  function EndCode(p: Option<Port>, c: Option<CellRef>): nat
  {
    (if c.None? then 0 else c.value + 1) * 9 + PortCode(p)
  }

  /** Distinct ends get distinct numbers. */
  lemma EndCodeInjective(p: Option<Port>, c: Option<CellRef>, q: Option<Port>, d: Option<CellRef>)
    requires EndCode(p, c) == EndCode(q, d)
    ensures p == q && c == d
  {
    var m := if c.None? then 0 else c.value + 1;
    var n := if d.None? then 0 else d.value + 1;
    assert m * 9 + PortCode(p) == n * 9 + PortCode(q);
    assert m == n;
  }

  /** The unordered pair of a key's two ends, smaller code first. */
  function Ends(k: GroupKey): (nat, nat)
  {
    var t := EndCode(k.tailPort, k.tailCell);
    var h := EndCode(k.headPort, k.headCell);
    if t <= h then (t, h) else (h, t)
  }

  /** `GroupKey.equals`: the two keys join the same unordered pair of ends. */
  predicate KeyEquals(a: GroupKey, b: GroupKey)
  {
    Ends(a) == Ends(b)
  }

  /** Key equality is the source's test: the same ports and cells at tail and at head, or
      the same ones with tail and head exchanged. */
  lemma KeyEqualsIsDirectOrSwapped(a: GroupKey, b: GroupKey)
    ensures KeyEquals(a, b) <==>
              (a.tailPort == b.tailPort && a.headPort == b.headPort &&
               a.tailCell == b.tailCell && a.headCell == b.headCell) ||
              (a.tailPort == b.headPort && a.headPort == b.tailPort &&
               a.tailCell == b.headCell && a.headCell == b.tailCell)
  {
    if KeyEquals(a, b) {
      var at, ah := EndCode(a.tailPort, a.tailCell), EndCode(a.headPort, a.headCell);
      var bt, bh := EndCode(b.tailPort, b.tailCell), EndCode(b.headPort, b.headCell);
      if at == bt {
        EndCodeInjective(a.tailPort, a.tailCell, b.tailPort, b.tailCell);
        EndCodeInjective(a.headPort, a.headCell, b.headPort, b.headCell);
      } else {
        EndCodeInjective(a.tailPort, a.tailCell, b.headPort, b.headCell);
        EndCodeInjective(a.headPort, a.headCell, b.tailPort, b.tailCell);
      }
    }
  }

  /** Key equality is an equivalence under which a key equals its swapped twin, whatever
      the drawing points. */
  lemma KeyEqualsIsEquivalence(a: GroupKey, b: GroupKey, c: GroupKey)
    ensures KeyEquals(a, a)
    ensures KeyEquals(a, a.Swapped())
    ensures KeyEquals(a, b) ==> KeyEquals(b, a)
    ensures KeyEquals(a, b) && KeyEquals(b, c) ==> KeyEquals(a, c)
  {
    KeyEqualsIsDirectOrSwapped(a, a.Swapped());
  }

  // `Objects.hash` and `GroupKey.hashCode`, in 32-bit two's-complement arithmetic.

  const TwoTo32: int := 0x1_0000_0000

  /** An int result of Java arithmetic: `x` wrapped into the signed 32-bit range. */
  function Int32(x: int): (r: int)
    ensures -0x8000_0000 <= r < 0x8000_0000
    ensures (r - x) % TwoTo32 == 0
  {
    var m := x % TwoTo32;
    if m >= 0x8000_0000 then m - TwoTo32 else m
  }

  /** `Arrays.hashCode` of the element hashes: start at 1, then `31 * h + e` for each. */
  function ArraysHash(hs: seq<int>): int
    decreases |hs|
  {
    if hs == [] then 1 else Int32(31 * ArraysHash(hs[..|hs| - 1]) + hs[|hs| - 1])
  }

  /** The hash of a nullable element: 0 for null, else the element's own hash code. */
  function NullableHash<T>(v: Option<T>, hash: T -> int): int
  {
    if v.None? then 0 else hash(v.value)
  }

  /** `GroupKey.hashCode`: the hash of the fields in key order plus the hash of the fields
      in swapped order, so that a key and its swapped twin hash alike. */
  function KeyHash(k: GroupKey, portHash: Port -> int, cellHash: CellRef -> int): int
  {
    var tp := NullableHash(k.tailPort, portHash);
    var hp := NullableHash(k.headPort, portHash);
    var tc := NullableHash(k.tailCell, cellHash);
    var hc := NullableHash(k.headCell, cellHash);
    Int32(ArraysHash([tp, hp, tc, hc]) + ArraysHash([hp, tp, hc, tc]))
  }

  /** Equal keys have equal hash codes, so a hash map groups keys by `KeyEquals`. */
  lemma EqualKeysHashAlike(a: GroupKey, b: GroupKey, portHash: Port -> int, cellHash: CellRef -> int)
    requires KeyEquals(a, b)
    ensures KeyHash(a, portHash, cellHash) == KeyHash(b, portHash, cellHash)
  {
    KeyEqualsIsDirectOrSwapped(a, b);
    var tp := NullableHash(a.tailPort, portHash);
    var hp := NullableHash(a.headPort, portHash);
    var tc := NullableHash(a.tailCell, cellHash);
    var hc := NullableHash(a.headCell, cellHash);
    if !(a.tailPort == b.tailPort && a.headPort == b.headPort &&
         a.tailCell == b.tailCell && a.headCell == b.headCell) {
      assert ArraysHash([tp, hp, tc, hc]) + ArraysHash([hp, tp, hc, tc]) ==
             ArraysHash([hp, tp, hc, tc]) + ArraysHash([tp, hp, tc, hc]);
    }
  }

  /** `newGroupKey`: a line with no port and no cell at either end is keyed at the node's
      centre; otherwise the key holds the ports, the resolved cells and the end points, the
      head point being the tail point when both ends coincide. */
  function NewGroupKey(tailPort: Option<Port>, headPort: Option<Port>,
                       tailCellId: Option<string>, headCellId: Option<string>,
                       nodeCenter: Point, getCell: string -> Option<CellRef>,
                       endPoint: (Option<string>, Option<Port>) -> Point): (k: GroupKey)
    ensures tailPort.None? && headPort.None? && tailCellId.None? && headCellId.None? ==>
              k.tailPoint == nodeCenter && k.headPoint == nodeCenter && !k.HavePortOrCell()
    ensures k.tailPort == tailPort && k.headPort == headPort
    ensures k.SamePoint() ==> k.tailPoint == k.headPoint
  {
    if tailPort.None? && headPort.None? && tailCellId.None? && headCellId.None? then
      GroupKey(None, None, None, None, nodeCenter, nodeCenter)
    else
      var tailCell := if tailCellId.None? then None else getCell(tailCellId.value);
      var headCell := if headCellId.None? then None else getCell(headCellId.value);
      var tailPoint := endPoint(tailCellId, tailPort);
      var headPoint := if tailCell == headCell && tailPort == headPort then tailPoint
                       else endPoint(headCellId, headPort);
      GroupKey(tailPort, headPort, tailCell, headCell, tailPoint, headPoint)
  }

  // ---------------------------------------------------------------------------------------
  // Direction tables

  /** `portDirection`: north goes up, south down, the three western ports left, and every
      other port, no port included, right. */
  function PortDirection(port: Option<Port>): (d: Direction)
    ensures d == Up <==> port == Some(North)
    ensures d == Down <==> port == Some(South)
    ensures d == Left <==> port == Some(NorthWest) || port == Some(West) || port == Some(SouthWest)
  {
    if port == Some(North) then Up
    else if port == Some(South) then Down
    else if port == Some(NorthWest) || port == Some(West) || port == Some(SouthWest) then Left
    else Right
  }

  /** `sameCellHorDirection(port)`: the three southern ports bulge down, all others up. */
  function SameCellHorDirection(port: Option<Port>): (d: Direction)
    ensures d == Up || d == Down
    ensures d == Down <==> port == Some(SouthWest) || port == Some(South) || port == Some(SouthEast)
  {
    if port == Some(SouthWest) || port == Some(South) || port == Some(SouthEast) then Down else Up
  }

  /** `sameCellVerDirection`: the three western ports bulge left, all others right. */
  function SameCellVerDirection(port: Option<Port>): (d: Direction)
    ensures d == Left || d == Right
    ensures d == Left <==> port == Some(NorthWest) || port == Some(West) || port == Some(SouthWest)
  {
    if port == Some(NorthWest) || port == Some(West) || port == Some(SouthWest) then Left else Right
  }

  /** The ordered port pairs that send a two-port loop on one cell to the left
      (isNW_S, isN_SW, isN_W, isNE_W, isNE_SW, isSE_W, isS_W, isC_NW, isC_SW). */
  predicate LeftPair(p1: Option<Port>, p2: Option<Port>)
  {
    (p1 == Some(NorthWest) && p2 == Some(South)) ||
    (p1 == Some(North) && p2 == Some(SouthWest)) ||
    (p1 == Some(North) && p2 == Some(West)) ||
    (p1 == Some(NorthEast) && p2 == Some(West)) ||
    (p1 == Some(NorthEast) && p2 == Some(SouthWest)) ||
    (p1 == Some(SouthEast) && p2 == Some(West)) ||
    (p1 == Some(South) && p2 == Some(West)) ||
    (p1 == None && p2 == Some(NorthWest)) ||
    (p1 == None && p2 == Some(SouthWest))
  }

  /** `sameCellHorDirection(tailPort, headPort)`: left when the two ports form a left pair in
      either order, otherwise right. */
  function SameCellPairDirection(tailPort: Option<Port>, headPort: Option<Port>): (d: Direction)
    ensures d == Left || d == Right
    ensures d == Left <==> LeftPair(tailPort, headPort) || LeftPair(headPort, tailPort)
  {
    if LeftPair(tailPort, headPort) || LeftPair(headPort, tailPort) then Left else Right
  }

  /** Exchanging the tail and head ports does not change the two-port direction. */
  lemma SameCellPairDirectionSymmetric(tailPort: Option<Port>, headPort: Option<Port>)
    ensures SameCellPairDirection(tailPort, headPort) == SameCellPairDirection(headPort, tailPort)
  {
  }

  /** `diagonalPointDirection`: left when the midpoint of the two end points lies left of
      the node's centre, otherwise right. */
  function DiagonalPointDirection(k: GroupKey, nodeX: real): (d: Direction)
    ensures d == Left <==> (k.tailPoint.x + k.headPoint.x) / 2.0 < nodeX
    ensures d == Left || d == Right
  {
    if (k.tailPoint.x + k.headPoint.x) / 2.0 < nodeX then Left else Right
  }

  // ---------------------------------------------------------------------------------------
  // Grouping

  /** `GroupEntry`: a self line (by its index in the node's self-line list) with its own key. */
  datatype GroupEntry = GroupEntry(key: GroupKey, line: nat)

  /** One group of the map groupSelfLine builds: the key the map holds (that of the group's
      first line) and the lines of the group in insertion order. */
  datatype Group = Group(key: GroupKey, entries: seq<GroupEntry>)

  /** The entries of `entries` whose key equals `k`, in order. */
  function Filter(entries: seq<GroupEntry>, k: GroupKey): seq<GroupEntry>
    decreases |entries|
  {
    if entries == [] then []
    else
      var last := entries[|entries| - 1];
      Filter(entries[..|entries| - 1], k) + (if KeyEquals(k, last.key) then [last] else [])
  }

  /** An entry is kept exactly when it is one of the entries and its key equals `k`. */
  lemma {:induction false} FilterMembers(entries: seq<GroupEntry>, k: GroupKey)
    ensures forall e :: e in Filter(entries, k) <==> e in entries && KeyEquals(k, e.key)
    decreases |entries|
  {
    if entries != [] {
      var n := |entries| - 1;
      FilterMembers(entries[..n], k);
      assert forall e :: e in entries <==> e in entries[..n] || e == entries[n] by {
        assert entries == entries[..n] + [entries[n]];
      }
    }
  }

  /** The index of the group whose key equals `k`, if there is one. */
  function FindGroup(groups: seq<Group>, k: GroupKey): (r: Option<nat>)
    ensures r.Some? ==> r.value < |groups| && KeyEquals(groups[r.value].key, k)
    ensures r.None? ==> forall i :: 0 <= i < |groups| ==> !KeyEquals(groups[i].key, k)
    decreases |groups|
  {
    if groups == [] then None
    else if KeyEquals(groups[|groups| - 1].key, k) then Some(|groups| - 1)
    else FindGroup(groups[..|groups| - 1], k)
  }

  /** `addLineToGroup`: append the entry to the group whose key equals its key, or open a
      new group keyed by it. */
  function AddLineToGroup(groups: seq<Group>, e: GroupEntry): (r: seq<Group>)
    ensures |r| == |groups| || |r| == |groups| + 1
  {
    match FindGroup(groups, e.key)
    case Some(j) => groups[j := Group(groups[j].key, groups[j].entries + [e])]
    case None => groups + [Group(e.key, [e])]
  }

  /** No two groups have equal keys. */
  ghost predicate KeysDistinct(groups: seq<Group>)
  {
    forall i, j :: 0 <= i < j < |groups| ==> !KeyEquals(groups[i].key, groups[j].key)
  }

  /** Each group is non-empty, keyed by its first line, and holds exactly the entries whose
      key equals its key, in order. */
  ghost predicate GroupsMatch(groups: seq<Group>, entries: seq<GroupEntry>)
  {
    forall i :: 0 <= i < |groups| ==>
      groups[i].entries == Filter(entries, groups[i].key) &&
      groups[i].entries != [] && groups[i].entries[0].key == groups[i].key
  }

  /** Every entry has a group. */
  ghost predicate AllGrouped(groups: seq<Group>, entries: seq<GroupEntry>)
  {
    forall e :: e in entries ==> FindGroup(groups, e.key).Some?
  }

  /** `groups` is the grouping of `entries`. */
  ghost predicate GroupsOf(groups: seq<Group>, entries: seq<GroupEntry>)
  {
    KeysDistinct(groups) && GroupsMatch(groups, entries) && AllGrouped(groups, entries)
  }

  /** No entry's key equals `k`: nothing is kept. */
  lemma {:induction false} FilterNone(entries: seq<GroupEntry>, k: GroupKey)
    requires forall x :: x in entries ==> !KeyEquals(k, x.key)
    ensures Filter(entries, k) == []
    decreases |entries|
  {
    if entries != [] {
      var n := |entries| - 1;
      assert forall x :: x in entries[..n] ==> x in entries;
      FilterNone(entries[..n], k);
    }
  }

  lemma FilterAppend(entries: seq<GroupEntry>, e: GroupEntry, k: GroupKey)
    ensures Filter(entries + [e], k) == Filter(entries, k) + (if KeyEquals(k, e.key) then [e] else [])
  {
    assert (entries + [e])[..|entries|] == entries;
  }

  lemma FindGroupSome(groups: seq<Group>, i: nat, k: GroupKey)
    requires i < |groups| && KeyEquals(groups[i].key, k)
    ensures FindGroup(groups, k).Some?
  {
  }

  /** An entry whose key has a group joins that group. */
  lemma JoinGroupKeepsGrouping(groups: seq<Group>, entries: seq<GroupEntry>, e: GroupEntry, j: nat)
    requires GroupsOf(groups, entries)
    requires j < |groups| && KeyEquals(groups[j].key, e.key)
    ensures GroupsOf(groups[j := Group(groups[j].key, groups[j].entries + [e])], entries + [e])
  {
    var r := groups[j := Group(groups[j].key, groups[j].entries + [e])];
    forall i | 0 <= i < |r|
      ensures r[i].entries == Filter(entries + [e], r[i].key)
    {
      FilterAppend(entries, e, groups[i].key);
      if i != j {
        assert !KeyEquals(groups[i].key, groups[j].key) by {
          if i < j { } else { assert !KeyEquals(groups[j].key, groups[i].key); }
        }
      }
    }
    forall x | x in entries + [e] ensures FindGroup(r, x.key).Some? {
      if x in entries {
        FindGroupSome(r, FindGroup(groups, x.key).value, x.key);
      } else {
        FindGroupSome(r, j, x.key);
      }
    }
  }

  /** An entry whose key has no group opens a new one. */
  lemma OpenGroupKeepsGrouping(groups: seq<Group>, entries: seq<GroupEntry>, e: GroupEntry)
    requires GroupsOf(groups, entries)
    requires forall i :: 0 <= i < |groups| ==> !KeyEquals(groups[i].key, e.key)
    ensures GroupsOf(groups + [Group(e.key, [e])], entries + [e])
  {
    var r := groups + [Group(e.key, [e])];
    forall x | x in entries ensures !KeyEquals(e.key, x.key) {
      var f := FindGroup(groups, x.key).value;
      assert KeyEquals(groups[f].key, x.key);
    }
    FilterNone(entries, e.key);
    forall i | 0 <= i < |r|
      ensures r[i].entries == Filter(entries + [e], r[i].key)
    {
      FilterAppend(entries, e, r[i].key);
    }
    forall x | x in entries + [e] ensures FindGroup(r, x.key).Some? {
      if x in entries {
        FindGroupSome(r, FindGroup(groups, x.key).value, x.key);
      } else {
        FindGroupSome(r, |groups|, x.key);
      }
    }
  }

  /** Adding one entry keeps `groups` the grouping of the entries seen so far. */
  lemma AddLineToGroupKeepsGrouping(groups: seq<Group>, entries: seq<GroupEntry>, e: GroupEntry)
    requires GroupsOf(groups, entries)
    ensures GroupsOf(AddLineToGroup(groups, e), entries + [e])
  {
    match FindGroup(groups, e.key)
    case Some(j) => JoinGroupKeepsGrouping(groups, entries, e, j);
    case None => OpenGroupKeepsGrouping(groups, entries, e);
  }

  /** A node's self line as groupSelfLine sees it: `None` when it has no line draw
      properties, otherwise its tail and head ends. */
  datatype LineEnds = LineEnds(tailPort: Option<Port>, headPort: Option<Port>,
                               tailCell: Option<string>, headCell: Option<string>)

  /** The entries groupSelfLine adds, in self-line index order: one per self line that has
      draw properties, keyed by `newGroupKey`. */
  function Entries(selfLines: seq<Option<LineEnds>>, nodeCenter: Point,
                   getCell: string -> Option<CellRef>,
                   endPoint: (Option<string>, Option<Port>) -> Point): (r: seq<GroupEntry>)
    ensures forall e :: e in r ==> e.line < |selfLines| && selfLines[e.line].Some?
    ensures forall i, j :: 0 <= i < j < |r| ==> r[i].line < r[j].line
    ensures forall i :: 0 <= i < |selfLines| && selfLines[i].Some? ==>
              exists e :: e in r && e.line == i
    decreases |selfLines|
  {
    if selfLines == [] then []
    else
      var n := |selfLines| - 1;
      var front := Entries(selfLines[..n], nodeCenter, getCell, endPoint);
      match selfLines[n]
      case None => front
      case Some(l) =>
        front + [GroupEntry(NewGroupKey(l.tailPort, l.headPort, l.tailCell, l.headCell,
                                        nodeCenter, getCell, endPoint), n)]
  }

  /** `groupSelfLine`: group the node's self lines by key, skipping those without draw
      properties. */
  method GroupSelfLine(selfLines: seq<Option<LineEnds>>, nodeCenter: Point,
                       getCell: string -> Option<CellRef>,
                       endPoint: (Option<string>, Option<Port>) -> Point)
    returns (groups: seq<Group>)
    ensures GroupsOf(groups, Entries(selfLines, nodeCenter, getCell, endPoint))
  {
    groups := [];
    var i := 0;
    while i < |selfLines|
      invariant 0 <= i <= |selfLines|
      invariant GroupsOf(groups, Entries(selfLines[..i], nodeCenter, getCell, endPoint))
    {
      assert selfLines[..i + 1][..i] == selfLines[..i];
      if selfLines[i].Some? {
        var l := selfLines[i].value;
        var key := NewGroupKey(l.tailPort, l.headPort, l.tailCell, l.headCell, nodeCenter, getCell, endPoint);
        AddLineToGroupKeepsGrouping(groups, Entries(selfLines[..i], nodeCenter, getCell, endPoint),
                                    GroupEntry(key, i));
        groups := AddLineToGroup(groups, GroupEntry(key, i));
      }
      i := i + 1;
    }
    assert selfLines[..i] == selfLines;
  }

  /** In a grouping, every entry lies in exactly one group. */
  lemma EntryInExactlyOneGroup(groups: seq<Group>, entries: seq<GroupEntry>, e: GroupEntry)
    requires GroupsOf(groups, entries) && e in entries
    ensures exists i :: 0 <= i < |groups| && e in groups[i].entries
    ensures forall i, j ::
              0 <= i < |groups| && 0 <= j < |groups| && e in groups[i].entries && e in groups[j].entries
              ==> i == j
  {
    var f := FindGroup(groups, e.key).value;
    FilterMembers(entries, groups[f].key);
    assert e in groups[f].entries;
    forall i, j | 0 <= i < |groups| && 0 <= j < |groups| && e in groups[i].entries && e in groups[j].entries
      ensures i == j
    {
      FilterMembers(entries, groups[i].key);
      FilterMembers(entries, groups[j].key);
      assert KeyEquals(groups[i].key, groups[j].key);
    }
  }

  /** Filtering keeps the order: a group's lines come in self-loop index order. */
  lemma {:induction false} FilterKeepsOrder(entries: seq<GroupEntry>, k: GroupKey)
    requires forall i, j :: 0 <= i < j < |entries| ==> entries[i].line < entries[j].line
    ensures forall i, j :: 0 <= i < j < |Filter(entries, k)| ==>
              Filter(entries, k)[i].line < Filter(entries, k)[j].line
    decreases |entries|
  {
    if entries != [] {
      var n := |entries| - 1;
      FilterKeepsOrder(entries[..n], k);
      var front := Filter(entries[..n], k);
      FilterMembers(entries[..n], k);
      forall x | x in front ensures x.line < entries[n].line {
        var i :| 0 <= i < n && entries[..n][i] == x;
      }
    }
  }

  /** Within every group of `groupSelfLine`'s result the lines keep self-loop index order. */
  lemma GroupsKeepIndexOrder(groups: seq<Group>, entries: seq<GroupEntry>, g: nat)
    requires GroupsOf(groups, entries) && g < |groups|
    requires forall i, j :: 0 <= i < j < |entries| ==> entries[i].line < entries[j].line
    ensures forall i, j :: 0 <= i < j < |groups[g].entries| ==>
              groups[g].entries[i].line < groups[g].entries[j].line
  {
    FilterKeepsOrder(entries, groups[g].key);
  }
}
