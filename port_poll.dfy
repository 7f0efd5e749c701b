/** The cyclic compass-port poll of the dot layout engine (`DotLayoutEngine.PortPoll`). */
module PortPolls {
  import opened Wrappers
  import opened Geometry

  /** Position of a port in the order newPort tests the borders: west, east, north, south. */
  function PollRank(p: Port): nat
  {
    match p
    case West => 0
    case East => 1
    case North => 2
    case South => 3
    case _ => 4
  }

  /** Every port is one newPort can add, and they come in poll order, each at most once. */
  ghost predicate InPollOrder(ports: seq<Port>)
  {
    (forall i :: 0 <= i < |ports| ==> PollRank(ports[i]) < 4) &&
    (forall i, j :: 0 <= i < j < |ports| ==> PollRank(ports[i]) < PollRank(ports[j]))
  }

  lemma {:induction false} InPollOrderBounded(ports: seq<Port>)
    requires InPollOrder(ports)
    ensures |ports| <= 4
    ensures forall i :: 0 <= i < |ports| ==> i <= PollRank(ports[i])
  {
    if |ports| > 0 {
      InPollOrderBounded(ports[..|ports| - 1]);
      var last := |ports| - 1;
      if last > 0 {
        assert PollRank(ports[last - 1]) < PollRank(ports[last]);
        assert ports[..last][last - 1] == ports[last - 1];
      }
      forall i | 0 <= i < |ports| ensures i <= PollRank(ports[i]) {
        if i < last {
          assert ports[..last][i] == ports[i];
        }
      }
    }
  }

  /** All ports of `s` rank below `bound` in the poll order. */
  ghost predicate RanksBelow(s: seq<Port>, bound: nat)
  {
    forall i :: 0 <= i < |s| ==> PollRank(s[i]) < bound
  }

  /** One `addPort(p)` step of newPort, taken when the border test `touches` holds. */
  function AddPortIf(s: seq<Port>, touches: bool, p: Port): seq<Port>
  {
    if touches then s + [p] else s
  }

  lemma AddPortIfInOrder(s: seq<Port>, touches: bool, p: Port)
    requires InPollOrder(s) && RanksBelow(s, PollRank(p)) && PollRank(p) < 4
    ensures InPollOrder(AddPortIf(s, touches, p)) && RanksBelow(AddPortIf(s, touches, p), PollRank(p) + 1)
  {
  }

  /** The ports newPort adds for the four border tests, in the order it makes them. */
  function PortsFor(west: bool, east: bool, north: bool, south: bool): (r: seq<Port>)
    ensures West in r <==> west
    ensures East in r <==> east
    ensures North in r <==> north
    ensures South in r <==> south
  {
    AddPortIf(AddPortIf(AddPortIf(AddPortIf([], west, West), east, East), north, North), south, South)
  }

  lemma PortsForInOrder(west: bool, east: bool, north: bool, south: bool)
    ensures InPollOrder(PortsFor(west, east, north, south))
    ensures |PortsFor(west, east, north, south)| <= 4
  {
    var s1 := AddPortIf([], west, West);
    AddPortIfInOrder([], west, West);
    var s2 := AddPortIf(s1, east, East);
    AddPortIfInOrder(s1, east, East);
    var s3 := AddPortIf(s2, north, North);
    AddPortIfInOrder(s2, north, North);
    AddPortIfInOrder(s3, south, South);
    InPollOrderBounded(PortsFor(west, east, north, south));
  }

  /** The ports newPort collects for a cell: one per node border the cell's box lies on
      (compared with tolerance 0.01), in the order west, east, north, south. */
  function TouchedPorts(cellBox: Box, nodeBox: Box, approx: Approx): (r: seq<Port>)
    ensures InPollOrder(r) && |r| <= 4
    ensures West in r <==> approx(cellBox.left, nodeBox.left, 0.01)
    ensures East in r <==> approx(cellBox.right, nodeBox.right, 0.01)
    ensures North in r <==> approx(cellBox.up, nodeBox.up, 0.01)
    ensures South in r <==> approx(cellBox.down, nodeBox.down, 0.01)
  {
    PortsForInOrder(approx(cellBox.left, nodeBox.left, 0.01), approx(cellBox.right, nodeBox.right, 0.01),
                    approx(cellBox.up, nodeBox.up, 0.01), approx(cellBox.down, nodeBox.down, 0.01));
    PortsFor(approx(cellBox.left, nodeBox.left, 0.01), approx(cellBox.right, nodeBox.right, 0.01),
             approx(cellBox.up, nodeBox.up, 0.01), approx(cellBox.down, nodeBox.down, 0.01))
  }

  /** The cursor position after handing out the port at `pos` of a poll of `n` ports. */
  function Advance(pos: nat, n: nat): (next: nat)
    requires pos < n
    ensures next < n
    ensures next == Wrap(pos, 1, n)
  {
    if pos + 1 == n then 0 else pos + 1
  }

  /** The place `k <= n` steps round a cycle of `n` from `pos` (that is, `(pos + k) % n`). */
  function Wrap(pos: nat, k: nat, n: nat): nat
    requires pos < n && k <= n
  {
    if pos + k < n then pos + k else pos + k - n
  }

  /** The cursor after `k` successive nextPort calls starting at `pos`. */
  function AdvanceBy(pos: nat, n: nat, k: nat): (next: nat)
    requires pos < n
    ensures next < n
    decreases k
  {
    if k == 0 then pos else AdvanceBy(Advance(pos, n), n, k - 1)
  }

  /** The ports that `k` successive nextPort calls hand out starting at `pos`. */
  function HandedOut(ports: seq<Port>, pos: nat, k: nat): (r: seq<Port>)
    requires pos < |ports|
    ensures |r| == k
    decreases k
  {
    if k == 0 then [] else [ports[pos]] + HandedOut(ports, Advance(pos, |ports|), k - 1)
  }

  /** One full cycle of the poll starting at `pos`. */
  function Rotation(ports: seq<Port>, pos: nat): (r: seq<Port>)
    requires pos <= |ports|
    ensures |r| == |ports|
    ensures multiset(r) == multiset(ports)
  {
    assert ports == ports[..pos] + ports[pos..];
    ports[pos..] + ports[..pos]
  }

  /** `k` nextPort calls, at most one round, move the cursor `k` places round the cycle. */
  lemma {:induction false} AdvanceByWraps(pos: nat, n: nat, k: nat)
    requires pos < n && k <= n
    ensures AdvanceBy(pos, n, k) == Wrap(pos, k, n)
    decreases k
  {
    if k > 0 {
      AdvanceByWraps(Advance(pos, n), n, k - 1);
    }
  }

  /** The `i`-th port handed out from `pos` is the one `i` places further round the cycle. */
  lemma {:induction false} HandedOutAt(ports: seq<Port>, pos: nat, k: nat, i: nat)
    requires pos < |ports| && i < k && i < |ports|
    ensures HandedOut(ports, pos, k)[i] == ports[Wrap(pos, i, |ports|)]
    decreases k
  {
    if i > 0 {
      HandedOutAt(ports, Advance(pos, |ports|), k - 1, i - 1);
    }
  }

  /** A full round of nextPort calls hands out the rotation of the poll at the cursor and
      brings the cursor back to where it started. */
  lemma FullRoundIsRotation(ports: seq<Port>, pos: nat)
    requires pos < |ports|
    ensures HandedOut(ports, pos, |ports|) == Rotation(ports, pos)
    ensures AdvanceBy(pos, |ports|, |ports|) == pos
  {
    var n := |ports|;
    forall i | 0 <= i < n ensures HandedOut(ports, pos, n)[i] == Rotation(ports, pos)[i] {
      HandedOutAt(ports, pos, n, i);
    }
    AdvanceByWraps(pos, n, n);
  }

  /** A poll with a single port hands out that port on every call. */
  lemma {:induction false} SinglePortRepeats(p: Port, k: nat)
    decreases k
    ensures HandedOut([p], 0, k) == seq(k, _ => p)
  {
    if k > 0 {
      SinglePortRepeats(p, k - 1);
      assert HandedOut([p], 0, k) == [p] + HandedOut([p], 0, k - 1);
    }
  }

  class PortPoll {
    var pos: nat
    var ports: seq<Port>

    ghost predicate Valid()
      reads this
    {
      InPollOrder(ports) && |ports| <= 4 &&
      (if |ports| == 0 then pos == 0 else pos < |ports|)
    }

    /** `PortPoll.newPort`: the poll of the ports whose node border the cell's box touches. */
    constructor NewPort(cellBox: Box, nodeBox: Box, approx: Approx)
      ensures Valid()
      ensures ports == TouchedPorts(cellBox, nodeBox, approx) && pos == 0
    {
      pos := 0;
      ports := TouchedPorts(cellBox, nodeBox, approx);
    }

    /** The number of ports in the poll, at most four. */
    function Size(): (n: nat)
      requires Valid()
      reads this
      ensures n <= 4
      ensures n == 0 <==> ports == []
    {
      |ports|
    }

    /** Hands out the port at the cursor and moves the cursor one place round the cycle;
        an empty poll hands out nothing. */
    method NextPort() returns (p: Option<Port>)
      requires Valid()
      modifies this`pos
      ensures Valid()
      ensures old(ports) == [] ==> p == None && pos == old(pos)
      ensures old(ports) != [] ==> p == Some(ports[old(pos)]) && pos == Advance(old(pos), |ports|)
    {
      if ports == [] {
        return None;
      }
      p := Some(ports[pos]);
      pos := pos + 1;
      if pos == |ports| {
        pos := 0;
      }
    }

    /** `iterator()`: a cursor that walks one full cycle from the current position. An empty
        poll hands out Java's empty iterator instead; this one stands for it, with `HasNext`
        false and `Next` failing with no such element. */
    method Iterator() returns (it: PollPortIterator)
      requires Valid()
      ensures fresh(it) && it.poll == this && it.cycleStartPos == pos && !it.start
    {
      it := new PollPortIterator(this);
    }
  }

  class PollPortIterator {
    var start: bool
    const cycleStartPos: nat
    const poll: PortPoll

    constructor (poll: PortPoll)
      ensures this.poll == poll && cycleStartPos == poll.pos && !start
    {
      this.poll := poll;
      this.cycleStartPos := poll.pos;
      this.start := false;
    }

    /** More ports remain until the cursor has come back round to where the walk began. */
    predicate HasNext()
      reads this, poll
    {
      |poll.ports| != 0 && (!start || poll.pos != cycleStartPos)
    }

    /** Hands out the next port of the cycle. Past the end of the cycle it refuses with an
        illegal argument and changes nothing; the iterator of an empty poll (Java's empty
        iterator) has no element at all. */
    method Next() returns (r: Result<Port>)
      requires poll.Valid()
      modifies this, poll`pos
      ensures poll.Valid() && poll.ports == old(poll.ports)
      ensures !old(HasNext()) ==> start == old(start) && poll.pos == old(poll.pos)
      ensures !old(HasNext()) && |poll.ports| == 0 ==> r == Err(NoSuchElement)
      ensures !old(HasNext()) && |poll.ports| != 0 ==> r == Err(IllegalArgument("Do not have elements"))
      ensures old(HasNext()) ==> start && r == Ok(poll.ports[old(poll.pos)]) &&
                                 poll.pos == Advance(old(poll.pos), |poll.ports|)
    {
      if |poll.ports| == 0 {
        return Err(NoSuchElement);
      }
      if !HasNext() {
        return Err(IllegalArgument("Do not have elements"));
      }
      start := true;
      var p := poll.NextPort();
      r := Ok(p.value);
    }
  }

  /** The enhanced for loop over a poll (`for (Port port : portPoll)`): it visits exactly
      `size()` ports, the rotation of the poll at its cursor, and leaves the cursor where
      it was. */
  method ForEachPort(poll: PortPoll) returns (visited: seq<Port>)
    requires poll.Valid()
    modifies poll`pos
    ensures poll.Valid() && poll.ports == old(poll.ports) && poll.pos == old(poll.pos)
    ensures |visited| == poll.Size()
    ensures visited == Rotation(poll.ports, poll.pos)
  {
    var it := poll.Iterator();
    visited := [];
    ghost var n := |poll.ports|;
    ghost var s := poll.pos;
    while it.HasNext()
      invariant poll.Valid() && poll.ports == old(poll.ports) && it.poll == poll
      invariant it.cycleStartPos == s && |visited| <= n
      invariant !it.start ==> visited == [] && poll.pos == s
      invariant n > 0 ==> poll.pos == AdvanceBy(s, n, |visited|) && visited == HandedOut(poll.ports, s, |visited|)
      invariant it.start ==> 0 < |visited| && (poll.pos == s <==> |visited| == n)
      decreases n - |visited|
    {
      ghost var k := |visited|;
      var r := it.Next();
      AdvanceByStep(s, n, k);
      HandedOutStep(poll.ports, s, k);
      visited := visited + [r.value];
      AdvanceByWraps(s, n, k + 1);
    }
    if n > 0 {
      FullRoundIsRotation(poll.ports, s);
    }
  }

  lemma {:induction false} AdvanceByStep(pos: nat, n: nat, k: nat)
    requires pos < n
    decreases k
    ensures AdvanceBy(pos, n, k + 1) == Advance(AdvanceBy(pos, n, k), n)
  {
    if k > 0 {
      AdvanceByStep(Advance(pos, n), n, k - 1);
    }
  }

  lemma {:induction false} HandedOutStep(ports: seq<Port>, pos: nat, k: nat)
    requires pos < |ports|
    decreases k
    ensures HandedOut(ports, pos, k + 1) == HandedOut(ports, pos, k) + [ports[AdvanceBy(pos, |ports|, k)]]
  {
    if k > 0 {
      HandedOutStep(ports, Advance(pos, |ports|), k - 1);
    }
  }
}
