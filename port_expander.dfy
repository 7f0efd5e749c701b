/** The drawing half of the port-aware node size expander (`PortNodeSizeExpanderV2`): each
    self-loop group is laid out as loops bulging out of the node, every later loop of a
    group one interval (plus the previous loop's label) further out. */
module PortExpander {
  import opened Wrappers
  import opened Geometry
  import opened SelfLoopGroups

  /** The node as the expander sees it: its centre and its four borders. */
  datatype NodeGeom = NodeGeom(x: real, y: real, leftBorder: real, rightBorder: real,
                               upBorder: real, downBorder: real)

  /** `LineDrawProp`: the points drawn for a line, its label centre, whether it was
      initialised already, and its end attributes. */
  datatype LineDrawProp = LineDrawProp(points: seq<Point>, labelCenter: Option<Point>,
                                       isInit: bool, ends: LineEnds)

  /** A self line of the node: the line it draws and the size of its label, if any. */
  datatype SelfLoop = SelfLoop(id: nat, labelSize: Option<Size>)

  /** What the expander needs of the node and the graph. */
  datatype Ctx = Ctx(node: NodeGeom, rankdir: Rankdir, move: MovePort, approx: Approx)

  /** What one routine does to one line: the points it appends, the label centre it sets,
      and the extent it adds to the running interval. */
  datatype Drawing = Drawing(points: seq<Point>, labelCenter: Option<Point>, extent: real)

  const NoDrawing: Drawing := Drawing([], None, 0.0)

  /** The graph's line draw properties, by line. */
  class DrawGraph {
    var lineProps: map<nat, LineDrawProp>

    constructor (lineProps: map<nat, LineDrawProp>)
      ensures this.lineProps == lineProps
    {
      this.lineProps := lineProps;
    }
  }

  /** A line with a drawing applied: the points appended and, when the drawing places a
      label, that label centre. */
  function Apply(prop: LineDrawProp, d: Drawing): (r: LineDrawProp)
    ensures r.points == prop.points + d.points
    ensures r.labelCenter == (if d.labelCenter.Some? then d.labelCenter else prop.labelCenter)
    ensures r.isInit == prop.isInit && r.ends == prop.ends
  {
    LineDrawProp(prop.points + d.points, if d.labelCenter.Some? then d.labelCenter else prop.labelCenter,
                 prop.isInit, prop.ends)
  }

  // ---------------------------------------------------------------------------------------
  // Labels

  /** `addLabel`: the label is placed just past the last point on the side the loop bulges
      to, centred on it along the other axis; the result is the label's extent along the
      bulge axis. */
  function AddLabel(isHor: bool, isAdd: bool, lastPoint: Point, labelSize: Size): (r: (Point, real))
    ensures isHor ==> r.0.y == lastPoint.y && r.1 == labelSize.width
    ensures !isHor ==> r.0.x == lastPoint.x && r.1 == labelSize.height
    ensures isHor && isAdd ==> r.0.x - labelSize.width / 2.0 == lastPoint.x
    ensures isHor && !isAdd ==> r.0.x + labelSize.width / 2.0 == lastPoint.x
    ensures !isHor && isAdd ==> r.0.y - labelSize.height / 2.0 == lastPoint.y
    ensures !isHor && !isAdd ==> r.0.y + labelSize.height / 2.0 == lastPoint.y
  {
    if isHor then
      if isAdd then (Point(lastPoint.x + labelSize.width / 2.0, lastPoint.y), labelSize.width)
      else (Point(lastPoint.x - labelSize.width / 2.0, lastPoint.y), labelSize.width)
    else
      if isAdd then (Point(lastPoint.x, lastPoint.y + labelSize.height / 2.0), labelSize.height)
      else (Point(lastPoint.x, lastPoint.y - labelSize.height / 2.0), labelSize.height)
  }

  /** `addLabelByLastPoint`: a line without a label, or with no points yet, gets no label and
      adds nothing; otherwise `addLabel` at the line's last point. */
  function LabelByLastPoint(isHor: bool, isAdd: bool, line: seq<Point>, labelSize: Option<Size>)
    : (r: (Option<Point>, real))
    ensures labelSize.None? || line == [] ==> r == (None, 0.0)
    ensures labelSize.Some? && line != [] ==>
              var l := AddLabel(isHor, isAdd, line[|line| - 1], labelSize.value);
              r == (Some(l.0), l.1)
  {
    if labelSize.None? || line == [] then (None, 0.0)
    else
      var l := AddLabel(isHor, isAdd, line[|line| - 1], labelSize.value);
      (Some(l.0), l.1)
  }

  // ---------------------------------------------------------------------------------------
  // The three routines

  /** The point `offset` past the node's border on side `dir`, level with `from`. */
  function Outward(node: NodeGeom, dir: Direction, offset: real, from: Point): (p: Point)
    ensures dir == Left ==> p == Point(node.leftBorder - offset, from.y)
    ensures dir == Right ==> p == Point(node.rightBorder + offset, from.y)
    ensures dir == Up ==> p == Point(from.x, node.upBorder - offset)
    ensures dir == Down ==> p == Point(from.x, node.downBorder + offset)
  {
    match dir
    case Left => Point(node.leftBorder - offset, from.y)
    case Right => Point(node.rightBorder + offset, from.y)
    case Up => Point(from.x, node.upBorder - offset)
    case Down => Point(from.x, node.downBorder + offset)
  }

  function IsHorizontal(dir: Direction): bool { dir == Left || dir == Right }

  function IsAdd(dir: Direction): bool { dir == Right || dir == Down }

  /** The size of a label along the side a loop bulges to. */
  function LabelExtent(dir: Direction, labelSize: Option<Size>): real
  {
    if labelSize.None? then 0.0 else if IsHorizontal(dir) then labelSize.value.width else labelSize.value.height
  }

  /** `setSamePointLine`: a loop whose ends coincide leaves the point and turns at `offset`
      past the border its (rank-direction adjusted) port faces. */
  function SamePointDrawing(k: GroupKey, ctx: Ctx, offset: real, labelSize: Option<Size>): (r: Drawing)
    ensures !k.SamePoint() ==> r == NoDrawing
    ensures k.SamePoint() ==>
              var dir := PortDirection(ctx.move(k.tailPort, ctx.rankdir));
              && r.points == [k.tailPoint, Outward(ctx.node, dir, offset, k.tailPoint)]
              && r.extent == LabelExtent(dir, labelSize)
              && (r.labelCenter.Some? <==> labelSize.Some?)
  {
    if !k.SamePoint() then NoDrawing
    else
      var dir := PortDirection(ctx.move(k.tailPort, ctx.rankdir));
      var line := [k.tailPoint, Outward(ctx.node, dir, offset, k.tailPoint)];
      var l := LabelByLastPoint(IsHorizontal(dir), IsAdd(dir), line, labelSize);
      Drawing(line, l.0, l.1)
  }

  /** `setUpDownLine`: two ends level on one cell are joined over the top or under the
      bottom of the node, through the point `offset` past that border above or below their
      midpoint. */
  function UpDownDrawing(k: GroupKey, ctx: Ctx, offset: real, labelSize: Option<Size>): (r: Drawing)
    ensures !IsOnlySameHor(k, ctx.approx) ==> r == NoDrawing
    ensures IsOnlySameHor(k, ctx.approx) ==>
              var dir := SameCellHorDirection(ctx.move(k.tailPort, ctx.rankdir));
              var mid := Point((k.tailPoint.x + k.headPoint.x) / 2.0, k.tailPoint.y);
              && (dir == Up || dir == Down)
              && r.points == [k.tailPoint, Outward(ctx.node, dir, offset, mid), k.headPoint]
              && r.extent == LabelExtent(dir, labelSize)
              && (r.labelCenter.Some? <==> labelSize.Some?)
  {
    if !IsOnlySameHor(k, ctx.approx) then NoDrawing
    else
      var dir := SameCellHorDirection(ctx.move(k.tailPort, ctx.rankdir));
      var mid := Point((k.tailPoint.x + k.headPoint.x) / 2.0, k.tailPoint.y);
      var turn := Outward(ctx.node, dir, offset, mid);
      var l := LabelByLastPoint(false, dir == Down, [k.tailPoint, turn], labelSize);
      Drawing([k.tailPoint, turn, k.headPoint], l.0, l.1)
  }

  /** The side a left-right loop bulges to: by the tail port for ends one above the other
      on a cell, by the port pair for other ends on one cell, else by the midpoint. */
  function LeftRightDirection(k: GroupKey, ctx: Ctx): (d: Direction)
    ensures d == Left || d == Right
  {
    if IsOnlySameVer(k, ctx.approx) then SameCellVerDirection(ctx.move(k.tailPort, ctx.rankdir))
    else if k.SameCell() then
      SameCellPairDirection(ctx.move(k.tailPort, ctx.rankdir), ctx.move(k.headPort, ctx.rankdir))
    else DiagonalPointDirection(k, ctx.node.x)
  }

  /** `setLeftRightLine`: every other loop is drawn round the left or the right of the node,
      through the point `offset` past that border at the height of the ends' midpoint. */
  function LeftRightDrawing(k: GroupKey, ctx: Ctx, offset: real, labelSize: Option<Size>): (r: Drawing)
    ensures k.SamePoint() || IsOnlySameHor(k, ctx.approx) ==> r == NoDrawing
    ensures !k.SamePoint() && !IsOnlySameHor(k, ctx.approx) ==>
              var dir := LeftRightDirection(k, ctx);
              var mid := Point(k.tailPoint.x, (k.tailPoint.y + k.headPoint.y) / 2.0);
              && r.points == [k.tailPoint, Outward(ctx.node, dir, offset, mid), k.headPoint]
              && r.extent == LabelExtent(dir, labelSize)
              && (r.labelCenter.Some? <==> labelSize.Some?)
  {
    if k.SamePoint() || IsOnlySameHor(k, ctx.approx) then NoDrawing
    else
      var dir := LeftRightDirection(k, ctx);
      var mid := Point(k.tailPoint.x, (k.tailPoint.y + k.headPoint.y) / 2.0);
      var turn := Outward(ctx.node, dir, offset, mid);
      var l := LabelByLastPoint(true, dir == Right, [k.tailPoint, turn], labelSize);
      Drawing([k.tailPoint, turn, k.headPoint], l.0, l.1)
  }

  /** The three routines in turn, each handed the interval as the previous one left it. */
  function EntryDrawing(k: GroupKey, ctx: Ctx, offset: real, labelSize: Option<Size>): Drawing
  {
    var d1 := SamePointDrawing(k, ctx, offset, labelSize);
    var d2 := UpDownDrawing(k, ctx, offset + d1.extent, labelSize);
    var d3 := LeftRightDrawing(k, ctx, offset + d1.extent + d2.extent, labelSize);
    Drawing(d1.points + d2.points + d3.points,
            if d3.labelCenter.Some? then d3.labelCenter
            else if d2.labelCenter.Some? then d2.labelCenter else d1.labelCenter,
            d1.extent + d2.extent + d3.extent)
  }

  /** Exactly one routine draws each loop, at the interval it was handed: two points for a
      same-point loop, three from tail point to head point for the others. */
  lemma ExactlyOneRoutineDraws(k: GroupKey, ctx: Ctx, offset: real, labelSize: Option<Size>)
    ensures k.SamePoint() ==>
              EntryDrawing(k, ctx, offset, labelSize) == SamePointDrawing(k, ctx, offset, labelSize) &&
              |EntryDrawing(k, ctx, offset, labelSize).points| == 2
    ensures IsOnlySameHor(k, ctx.approx) ==>
              EntryDrawing(k, ctx, offset, labelSize) == UpDownDrawing(k, ctx, offset, labelSize)
    ensures !k.SamePoint() && !IsOnlySameHor(k, ctx.approx) ==>
              EntryDrawing(k, ctx, offset, labelSize) == LeftRightDrawing(k, ctx, offset, labelSize)
    ensures !k.SamePoint() ==>
              var ps := EntryDrawing(k, ctx, offset, labelSize).points;
              |ps| == 3 && ps[0] == k.tailPoint && ps[2] == k.headPoint
  {
    var d := EntryDrawing(k, ctx, offset, labelSize);
    if k.SamePoint() {
      assert !IsOnlySameHor(k, ctx.approx);
      assert d.points == SamePointDrawing(k, ctx, offset, labelSize).points + [] + [];
    } else if IsOnlySameHor(k, ctx.approx) {
      assert d.points == [] + UpDownDrawing(k, ctx, offset, labelSize).points + [];
    } else {
      assert d.points == [] + [] + LeftRightDrawing(k, ctx, offset, labelSize).points;
    }
  }

  /** A loop adds its label's size to the interval, and nothing when it has no label. */
  lemma EntryExtentIsLabel(k: GroupKey, ctx: Ctx, offset: real, labelSize: Option<Size>)
    requires labelSize.Some? ==> labelSize.value.width >= 0.0 && labelSize.value.height >= 0.0
    ensures labelSize.None? ==> EntryDrawing(k, ctx, offset, labelSize).extent == 0.0
    ensures EntryDrawing(k, ctx, offset, labelSize).extent >= 0.0
  {
    ExactlyOneRoutineDraws(k, ctx, offset, labelSize);
  }

  // ---------------------------------------------------------------------------------------
  // The routines as state changes on the draw graph

  /** Apply `d` to line `id`, when the graph has draw properties for it. */
  function Draw(props: map<nat, LineDrawProp>, id: nat, d: Drawing): (r: map<nat, LineDrawProp>)
    ensures r.Keys == props.Keys
    ensures id in props ==> r == props[id := Apply(props[id], d)]
    ensures id !in props ==> r == props
  {
    if id in props then props[id := Apply(props[id], d)] else props
  }

  method SetSamePointLine(dg: DrawGraph, k: GroupKey, ctx: Ctx, interval: real, loop: SelfLoop)
    returns (extent: real)
    requires loop.id in dg.lineProps
    modifies dg
    ensures dg.lineProps == Draw(old(dg.lineProps), loop.id, SamePointDrawing(k, ctx, interval, loop.labelSize))
    ensures extent == SamePointDrawing(k, ctx, interval, loop.labelSize).extent
  {
    var d := SamePointDrawing(k, ctx, interval, loop.labelSize);
    dg.lineProps := dg.lineProps[loop.id := Apply(dg.lineProps[loop.id], d)];
    extent := d.extent;
  }

  method SetUpDownLine(dg: DrawGraph, k: GroupKey, ctx: Ctx, interval: real, loop: SelfLoop)
    returns (extent: real)
    requires loop.id in dg.lineProps
    modifies dg
    ensures dg.lineProps == Draw(old(dg.lineProps), loop.id, UpDownDrawing(k, ctx, interval, loop.labelSize))
    ensures extent == UpDownDrawing(k, ctx, interval, loop.labelSize).extent
  {
    var d := UpDownDrawing(k, ctx, interval, loop.labelSize);
    dg.lineProps := dg.lineProps[loop.id := Apply(dg.lineProps[loop.id], d)];
    extent := d.extent;
  }

  method SetLeftRightLine(dg: DrawGraph, k: GroupKey, ctx: Ctx, interval: real, loop: SelfLoop)
    returns (extent: real)
    requires loop.id in dg.lineProps
    modifies dg
    ensures dg.lineProps == Draw(old(dg.lineProps), loop.id, LeftRightDrawing(k, ctx, interval, loop.labelSize))
    ensures extent == LeftRightDrawing(k, ctx, interval, loop.labelSize).extent
  {
    var d := LeftRightDrawing(k, ctx, interval, loop.labelSize);
    dg.lineProps := dg.lineProps[loop.id := Apply(dg.lineProps[loop.id], d)];
    extent := d.extent;
  }

  /** Applying the three routines one after another is applying their combination. */
  lemma DrawThree(props: map<nat, LineDrawProp>, id: nat, k: GroupKey, ctx: Ctx, offset: real,
                  labelSize: Option<Size>)
    requires id in props
    ensures
      var d1 := SamePointDrawing(k, ctx, offset, labelSize);
      var d2 := UpDownDrawing(k, ctx, offset + d1.extent, labelSize);
      var d3 := LeftRightDrawing(k, ctx, offset + d1.extent + d2.extent, labelSize);
      Draw(Draw(Draw(props, id, d1), id, d2), id, d3) == Draw(props, id, EntryDrawing(k, ctx, offset, labelSize))
  {
    var d1 := SamePointDrawing(k, ctx, offset, labelSize);
    var d2 := UpDownDrawing(k, ctx, offset + d1.extent, labelSize);
    var d3 := LeftRightDrawing(k, ctx, offset + d1.extent + d2.extent, labelSize);
    assert props[id].points + d1.points + d2.points + d3.points ==
           props[id].points + (d1.points + d2.points + d3.points);
  }

  // ---------------------------------------------------------------------------------------
  // initExpander

  /** The interval handed to the entry after `entries`: the group's interval to begin with,
      then for each entry its label extent plus one more interval. */
  function NextInterval(entries: seq<GroupEntry>, interval: real, loops: seq<SelfLoop>, ctx: Ctx): real
    requires forall e :: e in entries ==> e.line < |loops|
    decreases |entries|
  {
    if entries == [] then interval
    else
      var n := |entries| - 1;
      var offset := NextInterval(entries[..n], interval, loops, ctx);
      var e := entries[n];
      offset + EntryDrawing(e.key, ctx, offset, loops[e.line].labelSize).extent + interval
  }

  /** The draw properties after the loops of `entries` have been drawn in order. */
  function DrawEntries(props: map<nat, LineDrawProp>, entries: seq<GroupEntry>, interval: real,
                       loops: seq<SelfLoop>, ctx: Ctx): (r: map<nat, LineDrawProp>)
    requires forall e :: e in entries ==> e.line < |loops|
    ensures r.Keys == props.Keys
    decreases |entries|
  {
    if entries == [] then props
    else
      var n := |entries| - 1;
      var e := entries[n];
      var offset := NextInterval(entries[..n], interval, loops, ctx);
      Draw(DrawEntries(props, entries[..n], interval, loops, ctx), loops[e.line].id,
           EntryDrawing(e.key, ctx, offset, loops[e.line].labelSize))
  }

  /** Every entry of every group names one of the node's self loops. */
  ghost predicate EntriesIn(groups: seq<Group>, loops: seq<SelfLoop>)
  {
    forall g, e :: g in groups && e in g.entries ==> e.line < |loops|
  }

  /** The draw properties after all groups have been drawn, each group starting afresh at
      the interval `minSelfInterval` gives for its size. */
  function DrawGroups(props: map<nat, LineDrawProp>, groups: seq<Group>, loops: seq<SelfLoop>,
                      ctx: Ctx, intervalOf: nat -> real): (r: map<nat, LineDrawProp>)
    requires EntriesIn(groups, loops)
    ensures r.Keys == props.Keys
    decreases |groups|
  {
    if groups == [] then props
    else
      var n := |groups| - 1;
      assert groups[n] in groups;
      DrawEntries(DrawGroups(props, groups[..n], loops, ctx, intervalOf), groups[n].entries,
                  intervalOf(|groups[n].entries|), loops, ctx)
  }

  /** One entry of initExpander's inner loop: the three routines on one loop; the running
      interval grows by the extent returned. */
  method DrawEntry(dg: DrawGraph, k: GroupKey, ctx: Ctx, offset: real, loop: SelfLoop)
    returns (extent: real)
    requires loop.id in dg.lineProps
    modifies dg
    ensures dg.lineProps == Draw(old(dg.lineProps), loop.id, EntryDrawing(k, ctx, offset, loop.labelSize))
    ensures extent == EntryDrawing(k, ctx, offset, loop.labelSize).extent
  {
    DrawThree(dg.lineProps, loop.id, k, ctx, offset, loop.labelSize);
    var x1 := SetSamePointLine(dg, k, ctx, offset, loop);
    var x2 := SetUpDownLine(dg, k, ctx, offset + x1, loop);
    var x3 := SetLeftRightLine(dg, k, ctx, offset + x1 + x2, loop);
    extent := x1 + x2 + x3;
  }

  /** initExpander's inner loop: draw one group's loops in order. */
  method DrawGroup(dg: DrawGraph, entries: seq<GroupEntry>, interval: real, loops: seq<SelfLoop>, ctx: Ctx)
    requires forall e :: e in entries ==> e.line < |loops| && loops[e.line].id in dg.lineProps
    modifies dg
    ensures dg.lineProps == DrawEntries(old(dg.lineProps), entries, interval, loops, ctx)
  {
    var nextInterval := interval;
    var k := 0;
    while k < |entries|
      invariant 0 <= k <= |entries|
      invariant dg.lineProps == DrawEntries(old(dg.lineProps), entries[..k], interval, loops, ctx)
      invariant nextInterval == NextInterval(entries[..k], interval, loops, ctx)
    {
      assert entries[..k + 1][..k] == entries[..k];
      assert entries[k] in entries;
      var e := entries[k];
      var extent := DrawEntry(dg, e.key, ctx, nextInterval, loops[e.line]);
      nextInterval := nextInterval + extent + interval;
      k := k + 1;
    }
    assert entries[..k] == entries;
  }

  /** `initExpander`: draw every group's loops, each group starting at its own interval. */
  method InitExpander(dg: DrawGraph, groups: seq<Group>, loops: seq<SelfLoop>, ctx: Ctx,
                      intervalOf: nat -> real)
    requires EntriesIn(groups, loops)
    requires forall g, e :: g in groups && e in g.entries ==> loops[e.line].id in dg.lineProps
    modifies dg
    ensures dg.lineProps == DrawGroups(old(dg.lineProps), groups, loops, ctx, intervalOf)
  {
    var g := 0;
    while g < |groups|
      invariant 0 <= g <= |groups|
      invariant dg.lineProps.Keys == old(dg.lineProps).Keys
      invariant dg.lineProps == DrawGroups(old(dg.lineProps), groups[..g], loops, ctx, intervalOf)
    {
      assert groups[..g + 1][..g] == groups[..g];
      assert groups[g] in groups;
      DrawGroup(dg, groups[g].entries, intervalOf(|groups[g].entries|), loops, ctx);
      g := g + 1;
    }
    assert groups[..g] == groups;
  }

  /** Each entry hands the next one at least one more interval. */
  lemma NextIntervalStep(entries: seq<GroupEntry>, interval: real, loops: seq<SelfLoop>, ctx: Ctx, m: nat)
    requires forall e :: e in entries ==> e.line < |loops|
    requires forall l :: l in loops && l.labelSize.Some? ==>
               l.labelSize.value.width >= 0.0 && l.labelSize.value.height >= 0.0
    requires m < |entries|
    ensures NextInterval(entries[..m], interval, loops, ctx) + interval <=
            NextInterval(entries[..m + 1], interval, loops, ctx)
  {
    assert entries[..m + 1][..m] == entries[..m];
    assert entries[m] in entries;
    var e := entries[m];
    assert loops[e.line] in loops;
    EntryExtentIsLabel(e.key, ctx, NextInterval(entries[..m], interval, loops, ctx), loops[e.line].labelSize);
  }

  /** Within a group, a later loop bulges strictly further out than an earlier one: each
      entry is handed the previous one's interval plus its label extent plus the group's
      (positive) interval. */
  lemma {:induction false} LaterLoopsFurtherOut(entries: seq<GroupEntry>, interval: real,
                                                loops: seq<SelfLoop>, ctx: Ctx, i: nat, j: nat)
    requires forall e :: e in entries ==> e.line < |loops|
    requires forall l :: l in loops && l.labelSize.Some? ==>
               l.labelSize.value.width >= 0.0 && l.labelSize.value.height >= 0.0
    requires interval > 0.0
    requires i < j <= |entries|
    ensures NextInterval(entries[..i], interval, loops, ctx) + interval <=
            NextInterval(entries[..j], interval, loops, ctx)
    decreases j
  {
    NextIntervalStep(entries, interval, loops, ctx, j - 1);
    if i < j - 1 {
      LaterLoopsFurtherOut(entries, interval, loops, ctx, i, j - 1);
    }
  }

  /** Drawing a group touches only the lines of its own loops. */
  lemma {:induction false} DrawEntriesOnlyTheirLines(props: map<nat, LineDrawProp>, entries: seq<GroupEntry>,
                                                      interval: real, loops: seq<SelfLoop>, ctx: Ctx, id: nat)
    requires forall e :: e in entries ==> e.line < |loops|
    requires forall e :: e in entries ==> loops[e.line].id != id
    requires id in props
    ensures DrawEntries(props, entries, interval, loops, ctx)[id] == props[id]
    decreases |entries|
  {
    if entries != [] {
      var n := |entries| - 1;
      assert forall x :: x in entries[..n] ==> x in entries;
      assert entries[n] in entries;
      DrawEntriesOnlyTheirLines(props, entries[..n], interval, loops, ctx, id);
    }
  }

  /** How groupSelfLine sees the node's self loops: the end attributes of those that have
      draw properties. */
  function SelfLineEnds(loops: seq<SelfLoop>, props: map<nat, LineDrawProp>): (r: seq<Option<LineEnds>>)
    ensures |r| == |loops|
    ensures forall i :: 0 <= i < |loops| ==> (r[i].Some? <==> loops[i].id in props)
    ensures forall i :: 0 <= i < |loops| && loops[i].id in props ==> r[i] == Some(props[loops[i].id].ends)
  {
    seq(|loops|, i requires 0 <= i < |loops| =>
      if loops[i].id in props then Some(props[loops[i].id].ends) else None)
  }

  /** The node size expander, as its constructor runs: group the node's self loops, then
      draw the groups. */
  method ExpandNode(dg: DrawGraph, loops: seq<SelfLoop>, nodeCenter: Point, ctx: Ctx,
                    intervalOf: nat -> real, getCell: string -> Option<CellRef>,
                    endPoint: (Option<string>, Option<Port>) -> Point)
    returns (groups: seq<Group>)
    modifies dg
    ensures GroupsOf(groups, Entries(SelfLineEnds(loops, old(dg.lineProps)), nodeCenter, getCell, endPoint))
    ensures EntriesIn(groups, loops)
    ensures dg.lineProps == DrawGroups(old(dg.lineProps), groups, loops, ctx, intervalOf)
  {
    var selfLines := SelfLineEnds(loops, dg.lineProps);
    groups := GroupSelfLine(selfLines, nodeCenter, getCell, endPoint);
    var entries := Entries(selfLines, nodeCenter, getCell, endPoint);
    forall g, e | g in groups && e in g.entries
      ensures e.line < |loops| && loops[e.line].id in dg.lineProps
    {
      var i :| 0 <= i < |groups| && groups[i] == g;
      FilterMembers(entries, g.key);
    }
    InitExpander(dg, groups, loops, ctx, intervalOf);
  }
}
