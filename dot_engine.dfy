/** The sequential helpers of the dot layout engine (`DotLayoutEngine`): edge legalisation,
    the defaults of a created edge, the router dispatch and the shifter strategies. */
module DotEngine {
  import opened Wrappers
  import opened Geometry

  // ---------------------------------------------------------------------------------------
  // Edges of the layout digraph

  /** A layout edge (`DLine`): its identity, tail and head node, weight, minimum rank length
      and optional label size. */
  datatype DLine = DLine(id: nat, from: nat, to: nat, weight: real, minlen: int, labelSize: Option<Size>)
  {
    predicate IsSelfLoop() { from == to }

    /** The same edge pointing the other way (`reverseEdge`). */
    function Reversed(): (r: DLine)
      ensures r.id == id && r.from == to && r.to == from
      ensures r.weight == weight && r.minlen == minlen && r.labelSize == labelSize
    {
      DLine(id, to, from, weight, minlen, labelSize)
    }
  }

  /** The rank the collapse stage gave each node. */
  type Rank = nat -> int

  /** An edge runs against the ranks: its tail is ranked below its head. */
  predicate Backward(e: DLine, rank: Rank)
  {
    rank(e.from) > rank(e.to)
  }

  /** The edge as handleLegalLine leaves it: reversed when it runs against the ranks. */
  function Orient(e: DLine, rank: Rank): (r: DLine)
    ensures r.id == e.id && rank(r.from) <= rank(r.to)
    ensures r.IsSelfLoop() <==> e.IsSelfLoop()
    ensures {r.from, r.to} == {e.from, e.to}
    ensures !Backward(e, rank) ==> r == e
    ensures Backward(e, rank) ==> r.from == e.to && r.to == e.from
    ensures r.weight == e.weight && r.minlen == e.minlen && r.labelSize == e.labelSize
  {
    if Backward(e, rank) then e.Reversed() else e
  }

  ghost predicate DistinctIds(edges: seq<DLine>)
  {
    forall i, j :: 0 <= i < j < |edges| ==> edges[i].id != edges[j].id
  }

  function IdsOf(edges: seq<DLine>): (ids: set<nat>)
    ensures forall e :: e in edges ==> e.id in ids
    ensures forall id :: id in ids ==> exists e :: e in edges && e.id == id
  {
    set e | e in edges :: e.id
  }

  /** The edges whose identity is not in `ids`, in their order. */
  function Without(edges: seq<DLine>, ids: set<nat>): (r: seq<DLine>)
    ensures |r| <= |edges|
    ensures forall e :: e in r <==> e in edges && e.id !in ids
    decreases edges
  {
    if edges == [] then []
    else if edges[0].id in ids then Without(edges[1..], ids)
    else [edges[0]] + Without(edges[1..], ids)
  }

  /** The self-loops among `edges`, in their order. */
  function SelfLoops(edges: seq<DLine>): (r: seq<DLine>)
    ensures forall e :: e in r <==> e in edges && e.IsSelfLoop()
    decreases edges
  {
    if edges == [] then []
    else if edges[0].IsSelfLoop() then [edges[0]] + SelfLoops(edges[1..])
    else SelfLoops(edges[1..])
  }

  /** The edges that run against the ranks, in their order. */
  function BackwardLines(edges: seq<DLine>, rank: Rank): (r: seq<DLine>)
    ensures forall e :: e in r <==> e in edges && Backward(e, rank)
    decreases edges
  {
    if edges == [] then []
    else if Backward(edges[0], rank) then [edges[0]] + BackwardLines(edges[1..], rank)
    else BackwardLines(edges[1..], rank)
  }

  /** The digraph after handleLegalLine: backward edges turned round, self-loops taken out. */
  function Legalised(edges: seq<DLine>, rank: Rank): (r: seq<DLine>)
    decreases edges
  {
    if edges == [] then []
    else if edges[0].IsSelfLoop() then Legalised(edges[1..], rank)
    else [Orient(edges[0], rank)] + Legalised(edges[1..], rank)
  }

  /** After legalisation every edge runs with the ranks and none is a self-loop. */
  lemma {:induction false} LegalisedIsForward(edges: seq<DLine>, rank: Rank)
    ensures forall e :: e in Legalised(edges, rank) ==> rank(e.from) <= rank(e.to) && !e.IsSelfLoop()
    decreases edges
  {
    if edges != [] {
      LegalisedIsForward(edges[1..], rank);
    }
  }

  /** Legalisation drops nothing but self-loops: every other edge survives, reversed exactly
      when it ran against the ranks, and every survivor comes from such an edge. */
  lemma {:induction false} LegalisedKeepsEdges(edges: seq<DLine>, rank: Rank)
    ensures forall e :: e in edges && !e.IsSelfLoop() ==> Orient(e, rank) in Legalised(edges, rank)
    ensures forall e :: e in Legalised(edges, rank) ==>
              exists o :: o in edges && !o.IsSelfLoop() && e == Orient(o, rank)
    ensures |Legalised(edges, rank)| + |SelfLoops(edges)| == |edges|
    decreases edges
  {
    if edges != [] {
      LegalisedKeepsEdges(edges[1..], rank);
      assert forall e :: e in edges ==> e == edges[0] || e in edges[1..];
    }
  }

  /** The edges with those whose identity is in `ids` turned round, each in its place. */
  function OrientedBy(edges: seq<DLine>, ids: set<nat>): (r: seq<DLine>)
    ensures |r| == |edges|
    ensures forall i :: 0 <= i < |edges| ==>
              r[i] == if edges[i].id in ids then edges[i].Reversed() else edges[i]
  {
    seq(|edges|, i requires 0 <= i < |edges| =>
      if edges[i].id in ids then edges[i].Reversed() else edges[i])
  }

  lemma {:induction false} WithoutTwice(edges: seq<DLine>, ids: set<nat>, id: nat)
    ensures Without(Without(edges, ids), {id}) == Without(edges, ids + {id})
    decreases edges
  {
    if edges != [] {
      WithoutTwice(edges[1..], ids, id);
    }
  }

  lemma {:induction false} WithoutSelfLoops(edges: seq<DLine>, rank: Rank)
    requires DistinctIds(edges)
    ensures Without(OrientedBy(edges, IdsOf(BackwardLines(edges, rank))), IdsOf(SelfLoops(edges)))
            == Legalised(edges, rank)
    decreases edges
  {
    var backIds := IdsOf(BackwardLines(edges, rank));
    var loopIds := IdsOf(SelfLoops(edges));
    if edges != [] {
      var rest := edges[1..];
      DropHead(edges);
      WithoutSelfLoops(rest, rank);
      var head := edges[0];
      var o := OrientedBy(edges, backIds);
      var oRest := OrientedBy(rest, IdsOf(BackwardLines(rest, rank)));
      assert o[1..] == oRest by {
        forall i | 0 <= i < |rest| ensures o[1..][i] == oRest[i] {
          assert edges[i + 1] == rest[i];
          assert rest[i].id != head.id;
          assert rest[i].id in backIds <==> rest[i].id in IdsOf(BackwardLines(rest, rank));
        }
      }
      assert o == [o[0]] + o[1..];
      assert Without(o[1..], loopIds) == Without(oRest, IdsOf(SelfLoops(rest))) by {
        WithoutSameOn(oRest, loopIds, IdsOf(SelfLoops(rest)), head.id);
      }
      assert o[0] == Orient(head, rank);
    }
  }

  lemma {:induction false} WithoutNothing(edges: seq<DLine>)
    ensures Without(edges, {}) == edges
    decreases edges
  {
    if edges != [] {
      WithoutNothing(edges[1..]);
    }
  }

  /** Removing `ids` or `ids'` gives the same when they differ only in an identity absent
      from the edges. */
  lemma {:induction false} WithoutSameOn(edges: seq<DLine>, ids: set<nat>, ids': set<nat>, absent: nat)
    requires forall e :: e in edges ==> e.id != absent
    requires ids - {absent} == ids' - {absent}
    ensures Without(edges, ids) == Without(edges, ids')
    decreases edges
  {
    if edges != [] {
      assert edges[0] in edges;
      assert edges[0].id in ids <==> edges[0].id in ids - {absent};
      assert edges[0].id in ids' <==> edges[0].id in ids' - {absent};
      WithoutSameOn(edges[1..], ids, ids', absent);
    }
  }

  // ---------------------------------------------------------------------------------------
  // Per-node self-line lists

  /** `selfLines` with `line` appended to its owning node's list (`addSelfLine`). */
  function AddSelfLine(selfLines: map<nat, seq<DLine>>, line: DLine): (r: map<nat, seq<DLine>>)
    ensures r.Keys == selfLines.Keys + {line.from}
  {
    selfLines[line.from := (if line.from in selfLines then selfLines[line.from] else []) + [line]]
  }

  /** `selfLines` after appending each of `lines`, in order, to its owner's list. */
  function AddSelfLines(selfLines: map<nat, seq<DLine>>, lines: seq<DLine>): map<nat, seq<DLine>>
    decreases |lines|
  {
    if lines == [] then selfLines
    else AddSelfLine(AddSelfLines(selfLines, lines[..|lines| - 1]), lines[|lines| - 1])
  }

  function LinesOf(selfLines: map<nat, seq<DLine>>, node: nat): seq<DLine>
  {
    if node in selfLines then selfLines[node] else []
  }

  /** The lines owned by `node`, in order. */
  function OwnedBy(lines: seq<DLine>, node: nat): seq<DLine>
    decreases |lines|
  {
    if lines == [] then []
    else OwnedBy(lines[..|lines| - 1], node) +
         (if lines[|lines| - 1].from == node then [lines[|lines| - 1]] else [])
  }

  /** Each node's self-line list grows by exactly its own loops, in order. */
  lemma {:induction false} AddSelfLinesPerNode(selfLines: map<nat, seq<DLine>>, lines: seq<DLine>, node: nat)
    ensures LinesOf(AddSelfLines(selfLines, lines), node) == LinesOf(selfLines, node) + OwnedBy(lines, node)
    decreases |lines|
  {
    if lines != [] {
      AddSelfLinesPerNode(selfLines, lines[..|lines| - 1], node);
    }
  }

  // ---------------------------------------------------------------------------------------
  // The digraph (`DotDigraph`) and handleLegalLine

  class DotDigraph {
    /** The edges in the order `for node : digraph, for line : adjacent(node)` visits them. */
    var edges: seq<DLine>
    /** Each node's self-line list (`DNode.selfLines`). */
    var selfLines: map<nat, seq<DLine>>

    constructor (edges: seq<DLine>, selfLines: map<nat, seq<DLine>>)
      ensures this.edges == edges && this.selfLines == selfLines
    {
      this.edges := edges;
      this.selfLines := selfLines;
    }

    /** `reverseEdge`: turn the edge with this identity round in place. */
    method ReverseEdge(line: DLine)
      modifies this`edges
      ensures edges == OrientedBy(old(edges), {line.id})
    {
      edges := OrientedBy(edges, {line.id});
    }

    /** `removeEdge`: take the edge out; the answer says whether it was there. */
    method RemoveEdge(line: DLine) returns (removed: bool)
      modifies this`edges
      ensures removed == (line.id in IdsOf(old(edges)))
      ensures edges == Without(old(edges), {line.id})
    {
      removed := line.id in IdsOf(edges);
      edges := Without(edges, {line.id});
    }

    /** `handleLegalLine`: reverse every edge whose tail is ranked below its head, then move
        every self-loop from the digraph into its node's self-line list, appending it exactly
        when its removal succeeds (which it always does, edges being distinct objects). */
    method HandleLegalLine(rank: Rank)
      requires DistinctIds(edges)
      modifies this
      ensures edges == Legalised(old(edges), rank)
      ensures selfLines == AddSelfLines(old(selfLines), SelfLoops(old(edges)))
    {
      ghost var original := edges;
      var reverseLines, selfLoopLines := ScanLines(edges, rank);
      FilteredDistinct(original, rank);
      ReverseLines(reverseLines);
      forall k | 0 <= k < |selfLoopLines| ensures selfLoopLines[k].id in IdsOf(edges) {
        SelfLoopPresent(original, rank, selfLoopLines, k);
      }
      MoveSelfLoops(selfLoopLines);
      WithoutSelfLoops(original, rank);
    }

    /** The first phase of handleLegalLine: reverse each collected backward edge. */
    method ReverseLines(reverseLines: seq<DLine>)
      requires DistinctIds(edges) && DistinctIds(reverseLines)
      modifies this`edges
      ensures edges == OrientedBy(old(edges), IdsOf(reverseLines))
    {
      ghost var original := edges;
      var k := 0;
      assert reverseLines[..0] == [] && IdsOf([]) == {};
      while k < |reverseLines|
        invariant 0 <= k <= |reverseLines|
        invariant edges == OrientedBy(original, IdsOf(reverseLines[..k]))
      {
        FreshInPrefix(reverseLines, k);
        OrientedByStep(original, IdsOf(reverseLines[..k]), reverseLines[k].id);
        ReverseEdge(reverseLines[k]);
        k := k + 1;
      }
      assert reverseLines[..k] == reverseLines;
    }

    /** The second phase of handleLegalLine: remove each self-loop from the digraph and,
        when the removal succeeds, append it to its node's self-line list. */
    method MoveSelfLoops(selfLoopLines: seq<DLine>)
      requires DistinctIds(selfLoopLines)
      requires forall k :: 0 <= k < |selfLoopLines| ==> selfLoopLines[k].id in IdsOf(edges)
      modifies this
      ensures edges == Without(old(edges), IdsOf(selfLoopLines))
      ensures selfLines == AddSelfLines(old(selfLines), selfLoopLines)
    {
      ghost var present := edges;
      WithoutNothing(present);
      assert selfLoopLines[..0] == [] && IdsOf([]) == {};
      var m := 0;
      while m < |selfLoopLines|
        invariant 0 <= m <= |selfLoopLines|
        invariant edges == Without(present, IdsOf(selfLoopLines[..m]))
        invariant selfLines == AddSelfLines(old(selfLines), selfLoopLines[..m])
      {
        var selfLoopLine := selfLoopLines[m];
        FreshInPrefix(selfLoopLines, m);
        StillPresent(present, IdsOf(selfLoopLines[..m]), selfLoopLine.id);
        WithoutTwice(present, IdsOf(selfLoopLines[..m]), selfLoopLine.id);
        var removed := RemoveEdge(selfLoopLine);
        if removed {
          selfLines := AddSelfLine(selfLines, selfLoopLine);
        }
        ghost var next := selfLoopLines[..m + 1];
        assert next[..m] == selfLoopLines[..m] && next[m] == selfLoopLine;
        assert AddSelfLines(old(selfLines), next) == AddSelfLine(AddSelfLines(old(selfLines), next[..m]), next[m]);
        m := m + 1;
      }
      assert selfLoopLines[..m] == selfLoopLines;
    }
  }

  /** The scan of handleLegalLine: the edges that run against the ranks and the self-loops,
      each in digraph order. */
  method ScanLines(edges: seq<DLine>, rank: Rank) returns (reverseLines: seq<DLine>, selfLoopLines: seq<DLine>)
    ensures reverseLines == BackwardLines(edges, rank)
    ensures selfLoopLines == SelfLoops(edges)
  {
    reverseLines := [];
    selfLoopLines := [];
    var i := 0;
    while i < |edges|
      invariant 0 <= i <= |edges|
      invariant reverseLines == BackwardLines(edges[..i], rank)
      invariant selfLoopLines == SelfLoops(edges[..i])
    {
      var line := edges[i];
      assert edges[..i + 1] == edges[..i] + [line];
      ScanStep(edges[..i], line, rank);
      if rank(line.from) <= rank(line.to) {
        if line.from == line.to {
          selfLoopLines := selfLoopLines + [line];
        }
      } else {
        reverseLines := reverseLines + [line];
      }
      i := i + 1;
    }
    assert edges[..i] == edges;
  }

  lemma ScanStep(prefix: seq<DLine>, line: DLine, rank: Rank)
    ensures BackwardLines(prefix + [line], rank) ==
            BackwardLines(prefix, rank) + (if Backward(line, rank) then [line] else [])
    ensures SelfLoops(prefix + [line]) == SelfLoops(prefix) + (if line.IsSelfLoop() then [line] else [])
  {
    BackwardLinesAppend(prefix, line, rank);
    SelfLoopsAppend(prefix, line);
  }

  lemma {:induction false} BackwardLinesAppend(prefix: seq<DLine>, line: DLine, rank: Rank)
    ensures BackwardLines(prefix + [line], rank) ==
            BackwardLines(prefix, rank) + (if Backward(line, rank) then [line] else [])
    decreases prefix
  {
    if prefix != [] {
      assert (prefix + [line])[1..] == prefix[1..] + [line];
      BackwardLinesAppend(prefix[1..], line, rank);
    }
  }

  lemma {:induction false} SelfLoopsAppend(prefix: seq<DLine>, line: DLine)
    ensures SelfLoops(prefix + [line]) == SelfLoops(prefix) + (if line.IsSelfLoop() then [line] else [])
    decreases prefix
  {
    if prefix != [] {
      assert (prefix + [line])[1..] == prefix[1..] + [line];
      SelfLoopsAppend(prefix[1..], line);
    }
  }

  lemma OrientedByStep(original: seq<DLine>, ids: set<nat>, id: nat)
    requires DistinctIds(original) && id !in ids
    ensures OrientedBy(OrientedBy(original, ids), {id}) == OrientedBy(original, ids + {id})
  {
    var a := OrientedBy(OrientedBy(original, ids), {id});
    var b := OrientedBy(original, ids + {id});
    forall i | 0 <= i < |original| ensures a[i] == b[i] {
      if original[i].id == id {
        assert OrientedBy(original, ids)[i] == original[i];
      }
    }
  }

  lemma DropHead(edges: seq<DLine>)
    requires DistinctIds(edges) && edges != []
    ensures DistinctIds(edges[1..])
    ensures forall e :: e in edges[1..] ==> e.id != edges[0].id
  {
    var rest := edges[1..];
    forall i, j | 0 <= i < j < |rest| ensures rest[i].id != rest[j].id {
      assert rest[i] == edges[i + 1] && rest[j] == edges[j + 1];
    }
    forall e | e in rest ensures e.id != edges[0].id {
      var j :| 0 <= j < |rest| && rest[j] == e;
      assert edges[j + 1] == e;
    }
  }

  /** The self-loops and the backward edges of a digraph are distinct objects too. */
  lemma {:induction false} FilteredDistinct(edges: seq<DLine>, rank: Rank)
    requires DistinctIds(edges)
    ensures DistinctIds(SelfLoops(edges)) && DistinctIds(BackwardLines(edges, rank))
    decreases edges
  {
    if edges != [] {
      DropHead(edges);
      FilteredDistinct(edges[1..], rank);
    }
  }

  /** In a list of distinct objects, an entry's identity is not among the earlier ones. */
  lemma FreshInPrefix(lines: seq<DLine>, m: nat)
    requires DistinctIds(lines) && m < |lines|
    ensures lines[m].id !in IdsOf(lines[..m])
    ensures IdsOf(lines[..m + 1]) == IdsOf(lines[..m]) + {lines[m].id}
  {
    forall j | 0 <= j < m ensures lines[..m][j].id != lines[m].id {
      assert lines[..m][j] == lines[j];
    }
    assert forall e :: e in lines[..m] ==> e.id != lines[m].id;
    assert lines[..m + 1] == lines[..m] + [lines[m]];
  }

  /** The self-loops are untouched by the reversals, so each is in the digraph when the
      removals start. */
  lemma SelfLoopPresent(original: seq<DLine>, rank: Rank, loops: seq<DLine>, m: nat)
    requires DistinctIds(original) && loops == SelfLoops(original)
    requires m < |loops|
    ensures loops[m].id in IdsOf(OrientedBy(original, IdsOf(BackwardLines(original, rank))))
  {
    var l := loops[m];
    assert l in original;
    var i :| 0 <= i < |original| && original[i] == l;
    var ids := IdsOf(BackwardLines(original, rank));
    var o := OrientedBy(original, ids);
    assert l.id !in ids by {
      forall b | b in BackwardLines(original, rank) ensures b.id != l.id {
        var j :| 0 <= j < |original| && original[j] == b;
        assert j != i;
      }
    }
    assert o[i] == l;
    assert o[i] in o;
  }

  /** An edge not yet removed is still there. */
  lemma StillPresent(edges: seq<DLine>, removed: set<nat>, id: nat)
    requires id in IdsOf(edges) && id !in removed
    ensures id in IdsOf(Without(edges, removed))
  {
    var e :| e in edges && e.id == id;
    assert e in Without(edges, removed);
  }

  // ---------------------------------------------------------------------------------------
  // consumerLine: the edge a line becomes

  /** `FlatPoint.flip`: a size with its two extents exchanged. */
  function Flip(s: Size): Size
  {
    Size(s.width, s.height)
  }

  /** `needLabelNode`: a line needs a label node when line properties exist (the spline mode
      is not NONE) and its label is non-empty. */
  predicate NeedLabelNode(haveLineDrawProps: bool, text: Option<string>)
  {
    haveLineDrawProps && text.Some? && text.value != ""
  }

  /** The text-measurement callback: (label, font name, font size) to a size. */
  type Measure = (string, string, real) -> Size

  /** `lineLabelSizeInit`: the measured label, with an unset font size treated as 0. */
  function LineLabelSizeInit(text: Option<string>, fontName: string, fontSize: Option<real>,
                             measure: Measure): (r: Option<Size>)
    ensures r.Some? <==> text.Some? && text.value != ""
    ensures r.Some? && fontSize.None? ==> r.value == measure(text.value, fontName, 0.0)
    ensures r.Some? && fontSize.Some? ==> r.value == measure(text.value, fontName, fontSize.value)
  {
    if text.None? || text.value == "" then None
    else Some(measure(text.value, fontName, fontSize.GetOr(0.0)))
  }

  /** The label size of a line's edge: the assembled label's size if there is one, else the
      measured label when a label node is needed; exchanged when the layout is flipped. */
  function LineLabelSize(assemble: Option<Size>, haveLineDrawProps: bool, text: Option<string>,
                         fontName: string, fontSize: Option<real>, measure: Measure,
                         needFlip: bool): (r: Option<Size>)
    ensures assemble.Some? ==> r == Some(if needFlip then Flip(assemble.value) else assemble.value)
    ensures assemble.None? && !NeedLabelNode(haveLineDrawProps, text) ==> r == None
    ensures r.Some? <==> assemble.Some? || NeedLabelNode(haveLineDrawProps, text)
    ensures assemble.None? && NeedLabelNode(haveLineDrawProps, text) ==>
              var measured := measure(text.value, fontName, if fontSize.Some? then fontSize.value else 0.0);
              r == Some(if needFlip then Flip(measured) else measured)
  {
    var size := if assemble.Some? then assemble
                else if NeedLabelNode(haveLineDrawProps, text)
                then LineLabelSizeInit(text, fontName, fontSize, measure)
                else None;
    if size.Some? && needFlip then Some(Flip(size.value)) else size
  }

  /** The edge `consumerLine` creates: the weight is the attribute's when set, else the
      line's own; the minimum length is the attribute's when set, else 1. */
  function NewDLine(id: nat, source: nat, target: nat, attrWeight: Option<real>, lineWeight: real,
                    attrMinlen: Option<int>, labelSize: Option<Size>): (d: DLine)
    ensures d.id == id && d.from == source && d.to == target && d.labelSize == labelSize
    ensures attrWeight.Some? ==> d.weight == attrWeight.value
    ensures attrWeight.None? ==> d.weight == lineWeight
    ensures attrMinlen.Some? ==> d.minlen == attrMinlen.value
    ensures attrMinlen.None? ==> d.minlen == 1
  {
    DLine(id, source, target, attrWeight.GetOr(lineWeight), attrMinlen.GetOr(1), labelSize)
  }

  // ---------------------------------------------------------------------------------------
  // Routing dispatch and shifters

  /** The spline modes (`Splines`). */
  datatype SplinesMode = NONE | LINE | POLYLINE | SPLINE | ORTHO | ROUNDED

  /** The router factories, in the order `SPLINES_HANDLERS` lists them. */
  datatype RouterFactory = RoundedRouter | SplineRouter | PolyLineRouter | LineRouter | OrthogonalRouter

  const SplinesHandlers: seq<RouterFactory> :=
    [RoundedRouter, SplineRouter, PolyLineRouter, LineRouter, OrthogonalRouter]

  /** `splines`: the index in `routers` of the router that routes the lines, if any. Nothing
      routes when the mode is unset or NONE, when there are no line properties, or when the
      proxy digraph has no vertex; otherwise the first router whose `needDeal` accepts the
      mode routes, and no later one. */
  method Splines(splines: Option<SplinesMode>, haveLineDrawProps: bool, vertexNum: nat,
                 routers: seq<RouterFactory>, needDeal: (RouterFactory, SplinesMode) -> bool)
    returns (routed: Option<nat>)
    ensures splines.None? || splines == Some(NONE) || !haveLineDrawProps || vertexNum == 0 ==>
              routed == None
    ensures routed.Some? ==>
              && routed.value < |routers|
              && needDeal(routers[routed.value], splines.value)
              && forall j :: 0 <= j < routed.value ==> !needDeal(routers[j], splines.value)
    ensures routed.None? && splines.Some? && splines != Some(NONE) && haveLineDrawProps && vertexNum > 0 ==>
              forall j :: 0 <= j < |routers| ==> !needDeal(routers[j], splines.value)
  {
    if splines.None? || splines == Some(NONE) || !haveLineDrawProps || vertexNum == 0 {
      return None;
    }
    var i := 0;
    while i < |routers|
      invariant 0 <= i <= |routers|
      invariant forall j :: 0 <= j < i ==> !needDeal(routers[j], splines.value)
    {
      if needDeal(routers[i], splines.value) {
        return Some(i);
      }
      i := i + 1;
    }
    return None;
  }

  /** The shift strategies after layout (`ShifterStrategy`). */
  datatype ShifterStrategy = FlipShifter

  /** `shifterStrategies`: none for top-to-bottom, otherwise exactly one flip strategy. */
  function ShifterStrategies(rankdir: Rankdir): (r: seq<ShifterStrategy>)
    ensures rankdir == TB <==> r == []
    ensures rankdir != TB ==> r == [FlipShifter]
  {
    if rankdir == TB then [] else [FlipShifter]
  }
}
