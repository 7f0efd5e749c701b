/** Orthogonal self loops (`OrthoNodeSizeExpanderV2.drawSelfLine`): once the node has its
    position, every self loop is redrawn as a six-point rectilinear loop round the right of
    the node, each drawn loop further out than the one before. */
module OrthoExpander {
  import opened Wrappers
  import opened Geometry
  import opened SelfLoopGroups
  import opened PortExpander

  /** The node for orthogonal loops: its geometry, width and real top and bottom heights. */
  datatype OrthoNode = OrthoNode(geom: NodeGeom, width: real, topHeight: real, bottomHeight: real)

  /** How far past the top, bottom and right border the last drawn loop went. */
  datatype Offsets = Offsets(top: real, bottom: real, right: real)

  /** `adjustPortPoint`: an end point, taken relative to the node when the key was built,
      moved by the node's centre. The key hands out copies of its points, so the key itself
      keeps the relative points. */
  function AdjustPortPoint(p: Point, center: Point): (r: Point)
    ensures r.x - center.x == p.x && r.y - center.y == p.y
  {
    Point(p.x + center.x, p.y + center.y)
  }

  /** The tail and head point of a key, each adjusted to the node's centre. */
  function AdjustedEnds(k: GroupKey, center: Point): (r: (Point, Point))
    ensures r.0 == AdjustPortPoint(k.tailPoint, center) && r.1 == AdjustPortPoint(k.headPoint, center)
    ensures k.tailPoint == k.headPoint ==> r.0 == r.1
  {
    (AdjustPortPoint(k.tailPoint, center), AdjustPortPoint(k.headPoint, center))
  }

  // ---------------------------------------------------------------------------------------
  // One loop

  /** The offsets after one more loop: top and bottom move out by one interval, or just
      far enough to clear half the label's height, whichever is further; the right side
      moves out by the label's width or the interval, whichever is larger. */
  function NextOffsets(o: Offsets, node: OrthoNode, interval: real, labelSize: Option<Size>): (r: Offsets)
    ensures
      var h := if labelSize.None? then 0.0 else labelSize.value.height;
      var w := if labelSize.None? then 0.0 else labelSize.value.width;
      && r.top >= o.top + interval && node.topHeight + r.top >= h / 2.0
      && (r.top == o.top + interval || node.topHeight + r.top == h / 2.0)
      && r.bottom >= o.bottom + interval && node.bottomHeight + r.bottom >= h / 2.0
      && (r.bottom == o.bottom + interval || node.bottomHeight + r.bottom == h / 2.0)
      && r.right >= o.right + w && r.right >= o.right + interval
      && (r.right == o.right + w || r.right == o.right + interval)
  {
    var h := if labelSize.None? then 0.0 else labelSize.value.height;
    var w := if labelSize.None? then 0.0 else labelSize.value.width;
    Offsets(Max(node.topHeight + o.top + interval, h / 2.0) - node.topHeight,
            Max(node.bottomHeight + o.bottom + interval, h / 2.0) - node.bottomHeight,
            o.right + Max(w, interval))
  }

  /** The x at which the `lineNo`-th of `n` loops of a key with neither port nor cell turns
      inside the node: the width split into `n + 1` equal parts, counted from the right. */
  function InnerX(node: OrthoNode, lineNo: nat, n: nat): real
  {
    node.geom.rightBorder - node.width / (n + 1) as real * (lineNo + 1) as real
  }

  /** Successive loops of one group turn at distinct points strictly inside a node of
      positive width, from right to left. */
  lemma InnerXInside(node: OrthoNode, lineNo: nat, n: nat)
    requires lineNo < n && node.width > 0.0
    ensures node.geom.rightBorder - node.width < InnerX(node, lineNo, n) < node.geom.rightBorder
    ensures forall later: nat :: lineNo < later < n ==> InnerX(node, later, n) < InnerX(node, lineNo, n)
  {
    var part := node.width / (n + 1) as real;
    assert part * (n + 1) as real == node.width;
    assert part > 0.0;
    assert part * (lineNo + 1) as real <= part * n as real;
    assert part * n as real < part * (n + 1) as real;
    forall later: nat | lineNo < later < n ensures InnerX(node, later, n) < InnerX(node, lineNo, n) {
      assert part * (lineNo + 1) as real < part * (later + 1) as real;
    }
  }

  /** Two consecutive points share an x or a y: the loop runs along the axes only. */
  ghost predicate Rectilinear(ps: seq<Point>)
  {
    forall i :: 0 <= i < |ps| - 1 ==> ps[i].x == ps[i + 1].x || ps[i].y == ps[i + 1].y
  }

  /** The six points of an orthogonal loop: from the tail up to the top line, across to the
      right line, down to the bottom line, back to the head; a loop with neither port nor
      cell leaves from and returns to a point inside the node on its centre line. */
  function LoopPoints(k: GroupKey, ends: (Point, Point), node: OrthoNode, lineNo: nat, n: nat, o: Offsets)
    : (r: seq<Point>)
    ensures |r| == 6 && Rectilinear(r)
    ensures r[1].y == r[2].y == node.geom.upBorder - o.top
    ensures r[2].x == r[3].x == node.geom.rightBorder + o.right
    ensures r[3].y == r[4].y == node.geom.downBorder + o.bottom
    ensures k.HavePortOrCell() ==> r[0] == ends.0 && r[5] == ends.1
    ensures !k.HavePortOrCell() ==> r[0] == r[5] == Point(InnerX(node, lineNo, n), node.geom.y)
  {
    var right := node.geom.rightBorder + o.right;
    var top := node.geom.upBorder - o.top;
    var bottom := node.geom.downBorder + o.bottom;
    if k.HavePortOrCell() then
      var (tail, head) := ends;
      [tail, Point(tail.x, top), Point(right, top), Point(right, bottom), Point(head.x, bottom), head]
    else
      var left := InnerX(node, lineNo, n);
      var center := Point(left, node.geom.y);
      [center, Point(left, top), Point(right, top), Point(right, bottom), Point(left, bottom), center]
  }

  /** The draw properties and offsets as drawSelfLine goes. */
  datatype OrthoState = OrthoState(props: map<nat, LineDrawProp>, offs: Offsets)

  /** One iteration of drawSelfLine's inner loop: a line without draw properties or drawn
      already is skipped and nothing changes; otherwise its points are replaced by the loop
      at the next offsets, and a label is centred on the loop's right side. */
  function DrawLoop(st: OrthoState, k: GroupKey, ends: (Point, Point), loop: SelfLoop, lineNo: nat, n: nat,
                    node: OrthoNode, interval: real): (r: OrthoState)
    ensures r.props.Keys == st.props.Keys
    ensures loop.id !in st.props || st.props[loop.id].isInit ==> r == st
    ensures loop.id in st.props && !st.props[loop.id].isInit ==>
              && r.offs == NextOffsets(st.offs, node, interval, loop.labelSize)
              && r.props == st.props[loop.id := r.props[loop.id]]
              && r.props[loop.id].points == LoopPoints(k, ends, node, lineNo, n, r.offs)
              && r.props[loop.id].isInit == st.props[loop.id].isInit
              && r.props[loop.id].ends == st.props[loop.id].ends
              && (loop.labelSize.Some? ==>
                    r.props[loop.id].labelCenter ==
                    Some(Point(node.geom.rightBorder + r.offs.right - loop.labelSize.value.width / 2.0, node.geom.y)))
              && (loop.labelSize.None? ==> r.props[loop.id].labelCenter == st.props[loop.id].labelCenter)
  {
    if loop.id !in st.props || st.props[loop.id].isInit then st
    else
      var offs := NextOffsets(st.offs, node, interval, loop.labelSize);
      var prop := st.props[loop.id];
      var center := if loop.labelSize.Some? then
                      Some(Point(node.geom.rightBorder + offs.right - loop.labelSize.value.width / 2.0, node.geom.y))
                    else prop.labelCenter;
      OrthoState(st.props[loop.id := LineDrawProp(LoopPoints(k, ends, node, lineNo, n, offs), center,
                                                  prop.isInit, prop.ends)], offs)
  }

  /** One group's loops, the `lineNo`-th entry being the `lineNo`-th loop of `n`. */
  function DrawLoops(st: OrthoState, k: GroupKey, ends: (Point, Point), entries: seq<GroupEntry>, n: nat,
                     loops: seq<SelfLoop>, node: OrthoNode, interval: real): (r: OrthoState)
    requires forall e :: e in entries ==> e.line < |loops|
    ensures r.props.Keys == st.props.Keys
    decreases |entries|
  {
    if entries == [] then st
    else
      var m := |entries| - 1;
      assert entries[m] in entries;
      DrawLoop(DrawLoops(st, k, ends, entries[..m], n, loops, node, interval), k, ends,
               loops[entries[m].line], m, n, node, interval)
  }

  /** All groups in turn, each using the points of its own key, moved to the node's centre. */
  function DrawAllLoops(st: OrthoState, groups: seq<Group>, loops: seq<SelfLoop>, node: OrthoNode,
                        interval: real): (r: OrthoState)
    requires EntriesIn(groups, loops)
    ensures r.props.Keys == st.props.Keys
    decreases |groups|
  {
    if groups == [] then st
    else
      var m := |groups| - 1;
      var g := groups[m];
      assert g in groups;
      DrawLoops(DrawAllLoops(st, groups[..m], loops, node, interval), g.key,
                AdjustedEnds(g.key, Point(node.geom.x, node.geom.y)), g.entries, |g.entries|,
                loops, node, interval)
  }

  // ---------------------------------------------------------------------------------------
  // drawSelfLine

  /** drawSelfLine's inner-loop body on the draw graph. */
  method DrawOneLoop(dg: DrawGraph, offs: Offsets, k: GroupKey, ends: (Point, Point), loop: SelfLoop,
                     lineNo: nat, n: nat, node: OrthoNode, interval: real)
    returns (next: Offsets)
    modifies dg
    ensures OrthoState(dg.lineProps, next) ==
            DrawLoop(OrthoState(old(dg.lineProps), offs), k, ends, loop, lineNo, n, node, interval)
  {
    if loop.id !in dg.lineProps || dg.lineProps[loop.id].isInit {
      return offs;
    }
    var prop := dg.lineProps[loop.id];
    next := NextOffsets(offs, node, interval, loop.labelSize);
    var points := LoopPoints(k, ends, node, lineNo, n, next);
    var center := prop.labelCenter;
    if loop.labelSize.Some? {
      center := Some(Point(node.geom.rightBorder + next.right - loop.labelSize.value.width / 2.0, node.geom.y));
    }
    dg.lineProps := dg.lineProps[loop.id := LineDrawProp(points, center, prop.isInit, prop.ends)];
  }

  /** drawSelfLine's inner loop: one group's loops. */
  method DrawGroupLoops(dg: DrawGraph, offs: Offsets, g: Group, loops: seq<SelfLoop>, node: OrthoNode,
                        interval: real)
    returns (next: Offsets)
    requires forall e :: e in g.entries ==> e.line < |loops|
    modifies dg
    ensures OrthoState(dg.lineProps, next) ==
            DrawLoops(OrthoState(old(dg.lineProps), offs), g.key,
                      AdjustedEnds(g.key, Point(node.geom.x, node.geom.y)), g.entries, |g.entries|,
                      loops, node, interval)
  {
    var ends := AdjustedEnds(g.key, Point(node.geom.x, node.geom.y));
    next := offs;
    var lineNo := 0;
    while lineNo < |g.entries|
      invariant 0 <= lineNo <= |g.entries|
      invariant OrthoState(dg.lineProps, next) ==
                DrawLoops(OrthoState(old(dg.lineProps), offs), g.key, ends, g.entries[..lineNo],
                          |g.entries|, loops, node, interval)
    {
      assert g.entries[..lineNo + 1][..lineNo] == g.entries[..lineNo];
      assert g.entries[lineNo] in g.entries;
      next := DrawOneLoop(dg, next, g.key, ends, loops[g.entries[lineNo].line], lineNo, |g.entries|,
                          node, interval);
      lineNo := lineNo + 1;
    }
    assert g.entries[..lineNo] == g.entries;
  }

  /** `drawSelfLine`: nothing when the node kept no groups; otherwise every group's loops,
      the offsets running on from group to group, at half the node's minimum self-loop
      interval. */
  method DrawSelfLine(dg: DrawGraph, groups: Option<seq<Group>>, loops: seq<SelfLoop>, node: OrthoNode,
                      minSelfInterval: real)
    requires groups.Some? ==> EntriesIn(groups.value, loops)
    modifies dg
    ensures groups.None? ==> dg.lineProps == old(dg.lineProps)
    ensures groups.Some? ==>
              dg.lineProps == DrawAllLoops(OrthoState(old(dg.lineProps), Offsets(0.0, 0.0, 0.0)), groups.value,
                                           loops, node, minSelfInterval / 2.0).props
  {
    if groups.None? {
      return;
    }
    var gs := groups.value;
    var interval := minSelfInterval / 2.0;
    var offs := Offsets(0.0, 0.0, 0.0);
    var i := 0;
    while i < |gs|
      invariant 0 <= i <= |gs|
      invariant OrthoState(dg.lineProps, offs) ==
                DrawAllLoops(OrthoState(old(dg.lineProps), Offsets(0.0, 0.0, 0.0)), gs[..i], loops, node, interval)
    {
      assert gs[..i + 1][..i] == gs[..i];
      assert gs[i] in gs;
      offs := DrawGroupLoops(dg, offs, gs[i], loops, node, interval);
      i := i + 1;
    }
    assert gs[..i] == gs;
  }

  // ---------------------------------------------------------------------------------------
  // Properties of a drawSelfLine run

  /** With a positive interval, a loop drawn after others runs strictly outside every
      earlier one: its top line above the earlier top, its right line right of the earlier
      right and its bottom line below the earlier bottom. */
  lemma DrawnLoopClearsEarlier(st: OrthoState, k: GroupKey, ends: (Point, Point), loop: SelfLoop, lineNo: nat,
                               n: nat, node: OrthoNode, interval: real)
    requires interval > 0.0
    requires loop.id in st.props && !st.props[loop.id].isInit
    ensures var r := DrawLoop(st, k, ends, loop, lineNo, n, node, interval);
            var ps := r.props[loop.id].points;
            && ps[1].y < node.geom.upBorder - st.offs.top
            && ps[2].x > node.geom.rightBorder + st.offs.right
            && ps[3].y > node.geom.downBorder + st.offs.bottom
  {
  }

  lemma {:induction false} DrawLoopsOffsetsGrow(st: OrthoState, k: GroupKey, ends: (Point, Point),
                                                  entries: seq<GroupEntry>, n: nat, loops: seq<SelfLoop>,
                                                  node: OrthoNode, interval: real)
    requires forall e :: e in entries ==> e.line < |loops|
    requires interval >= 0.0
    ensures var r := DrawLoops(st, k, ends, entries, n, loops, node, interval);
            r.offs.top >= st.offs.top && r.offs.bottom >= st.offs.bottom && r.offs.right >= st.offs.right
    decreases |entries|
  {
    if entries != [] {
      var m := |entries| - 1;
      assert forall e :: e in entries[..m] ==> e in entries;
      DrawLoopsOffsetsGrow(st, k, ends, entries[..m], n, loops, node, interval);
    }
  }

  /** Across the whole run the offsets never shrink: later groups go round the earlier ones. */
  lemma {:induction false} DrawAllLoopsOffsetsGrow(st: OrthoState, groups: seq<Group>, loops: seq<SelfLoop>,
                                                     node: OrthoNode, interval: real)
    requires EntriesIn(groups, loops)
    requires interval >= 0.0
    ensures var r := DrawAllLoops(st, groups, loops, node, interval);
            r.offs.top >= st.offs.top && r.offs.bottom >= st.offs.bottom && r.offs.right >= st.offs.right
    decreases |groups|
  {
    if groups != [] {
      var m := |groups| - 1;
      var g := groups[m];
      assert g in groups;
      assert forall x :: x in groups[..m] ==> x in groups;
      DrawAllLoopsOffsetsGrow(st, groups[..m], loops, node, interval);
      DrawLoopsOffsetsGrow(DrawAllLoops(st, groups[..m], loops, node, interval), g.key,
                           AdjustedEnds(g.key, Point(node.geom.x, node.geom.y)), g.entries, |g.entries|,
                           loops, node, interval);
    }
  }

  /** A line that is not one of the group's loops is left as it was. */
  lemma {:induction false} DrawLoopsOnlyTheirLines(st: OrthoState, k: GroupKey, ends: (Point, Point),
                                                     entries: seq<GroupEntry>, n: nat, loops: seq<SelfLoop>,
                                                     node: OrthoNode, interval: real, id: nat)
    requires forall e :: e in entries ==> e.line < |loops| && loops[e.line].id != id
    requires id in st.props
    ensures DrawLoops(st, k, ends, entries, n, loops, node, interval).props[id] == st.props[id]
    decreases |entries|
  {
    if entries != [] {
      var m := |entries| - 1;
      assert forall e :: e in entries[..m] ==> e in entries;
      assert entries[m] in entries;
      DrawLoopsOnlyTheirLines(st, k, ends, entries[..m], n, loops, node, interval, id);
    }
  }

  /** A loop drawn for a key with a port or cell starts at the tail's and ends at the head's
      end point, moved to the node's centre; for a same-point key it is closed. */
  lemma LoopJoinsEndPoints(k: GroupKey, node: OrthoNode, lineNo: nat, n: nat, o: Offsets)
    requires k.HavePortOrCell()
    ensures var c := Point(node.geom.x, node.geom.y);
            var r := LoopPoints(k, AdjustedEnds(k, c), node, lineNo, n, o);
            && r[0] == AdjustPortPoint(k.tailPoint, c) && r[5] == AdjustPortPoint(k.headPoint, c)
            && (k.tailPoint == k.headPoint ==> r[0] == r[5])
  {
  }
}
