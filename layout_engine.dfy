/** The bookkeeping of the layout template (`AbstractLayoutEngine`): input checks, ids
    handed out in first-seen order, the nearest template container, the merge of template
    and default attributes into a node's or line's attributes, and node box sizing. */
module LayoutTemplate {
  import opened Wrappers
  import opened Geometry

  // ---------------------------------------------------------------------------------------
  // layout: argument checks

  /** `layout` refuses a missing graph and a graph without nodes before doing any work;
      `nodeNum` is the graph's node count when there is a graph. */
  function CheckLayoutArgs(nodeNum: Option<nat>): (r: Result<nat>)
    ensures nodeNum.None? ==> r == Err(NullArgument("Graphviz"))
    ensures nodeNum == Some(0) ==> r.Err? && r.error.IllegalArgument?
    ensures r.Ok? <==> nodeNum.Some? && nodeNum.value > 0
    ensures r.Ok? ==> r.value == nodeNum.value
  {
    if nodeNum.None? then Err(NullArgument("Graphviz"))
    else if nodeNum.value == 0 then Err(IllegalArgument("Graphviz container is empty!"))
    else Ok(nodeNum.value)
  }

  // ---------------------------------------------------------------------------------------
  // First-seen ids

  /** The id maps `nodeId`, `lineId` and `clusterId`: each element met for the first time
      gets the map's size as its id. `order` is the order of first encounters. */
  class Registry {
    var ids: map<nat, nat>
    ghost var order: seq<nat>

    ghost predicate Valid()
      reads this
    {
      && (forall i, j :: 0 <= i < j < |order| ==> order[i] != order[j])
      && (forall x :: x in ids <==> x in order)
      && (forall i :: 0 <= i < |order| ==> ids[order[i]] == i)
      && |ids| == |order|
    }

    constructor ()
      ensures Valid() && ids == map[] && order == []
    {
      ids := map[];
      order := [];
    }

    /** The id step of nodeHandle, lineHandle and clusterHandle: an element seen before
        keeps its id and nothing changes; a new one gets the next id, returned so that the
        caller can name it. */
    method Register(x: nat) returns (nz: Option<nat>)
      requires Valid()
      modifies this
      ensures Valid()
      ensures order == SeenAfter(old(order), [x])
      ensures x in old(ids) ==> nz.None? && ids == old(ids)
      ensures x !in old(ids) ==> nz == Some(|old(order)|) && ids == old(ids)[x := |old(order)|]
    {
      assert [x][..0] == [];
      if x in ids {
        return None;
      }
      var n := |ids|;
      ids := ids[x := n];
      order := order + [x];
      return Some(n);
    }
  }

  /** In a valid registry the ids are exactly 0, 1, ..., n - 1, one per element. */
  lemma {:induction false} RegistryIdsConsecutive(r: Registry)
    requires r.Valid()
    ensures forall x :: x in r.ids ==> r.ids[x] < |r.ids|
    ensures forall x, y :: x in r.ids && y in r.ids && x != y ==> r.ids[x] != r.ids[y]
    ensures forall n :: 0 <= n < |r.ids| ==> n in r.ids.Values
  {
    forall x | x in r.ids ensures r.ids[x] < |r.ids| {
      var i :| 0 <= i < |r.order| && r.order[i] == x;
    }
    forall x, y | x in r.ids && y in r.ids && x != y ensures r.ids[x] != r.ids[y] {
      var i :| 0 <= i < |r.order| && r.order[i] == x;
      var j :| 0 <= j < |r.order| && r.order[j] == y;
    }
    forall n | 0 <= n < |r.ids| ensures n in r.ids.Values {
      assert r.order[n] in r.ids && r.ids[r.order[n]] == n;
    }
  }

  /** `order` extended by the elements of `xs` not met before, in first-seen order. */
  function SeenAfter(order: seq<nat>, xs: seq<nat>): seq<nat>
    decreases |xs|
  {
    if xs == [] then order
    else
      var front := SeenAfter(order, xs[..|xs| - 1]);
      var x := xs[|xs| - 1];
      if x in front then front else front + [x]
  }

  /** Registering keeps what was there, in front, and registers exactly what was there or
      was met. */
  lemma {:induction false} SeenAfterMembers(order: seq<nat>, xs: seq<nat>)
    ensures var r := SeenAfter(order, xs);
            |r| >= |order| && r[..|order|] == order &&
            forall x :: x in r <==> x in order || x in xs
    decreases |xs|
  {
    if xs != [] {
      var n := |xs| - 1;
      SeenAfterMembers(order, xs[..n]);
      assert xs == xs[..n] + [xs[n]];
      var front := SeenAfter(order, xs[..n]);
      if xs[n] !in front {
        assert (front + [xs[n]])[..|order|] == front[..|order|];
      }
    }
  }

  /** Register every element of `xs` in turn. */
  method RegisterAll(reg: Registry, xs: seq<nat>)
    requires reg.Valid()
    modifies reg
    ensures reg.Valid()
    ensures reg.order == SeenAfter(old(reg.order), xs)
  {
    var i := 0;
    while i < |xs|
      invariant 0 <= i <= |xs|
      invariant reg.Valid()
      invariant reg.order == SeenAfter(old(reg.order), xs[..i])
    {
      assert xs[..i + 1] == xs[..i] + [xs[i]];
      var _ := reg.Register(xs[i]);
      SeenAfterAppend(old(reg.order), xs[..i], [xs[i]]);
      i := i + 1;
    }
    assert xs[..i] == xs;
  }

  // Names given to lines and clusters.

  function Digit(d: nat): char
    requires d < 10
  {
    ('0' as int + d) as char
  }

  /** A number in decimal, as `String.valueOf` writes it. */
  function NatToString(n: nat): (s: string)
    ensures |s| >= 1
    decreases n
  {
    if n < 10 then [Digit(n)] else NatToString(n / 10) + [Digit(n % 10)]
  }

  /** Reads a decimal numeral back. */
  function StringToNat(s: string): int
    requires |s| >= 1
    decreases |s|
  {
    var d := s[|s| - 1] as int - '0' as int;
    if |s| == 1 then d else 10 * StringToNat(s[..|s| - 1]) + d
  }

  /** Reading a written number gives the number back, so different numbers are written
      differently. */
  lemma {:induction false} NatToStringRoundTrip(n: nat)
    ensures StringToNat(NatToString(n)) == n
    decreases n
  {
    if n >= 10 {
      var s := NatToString(n);
      assert s[..|s| - 1] == NatToString(n / 10);
      NatToStringRoundTrip(n / 10);
    }
  }

  /** The draw id lineHandle gives a line: "line_" and its number. */
  function LineName(n: nat): string
  {
    "line_" + NatToString(n)
  }

  /** The draw id clusterHandle gives a cluster: "cluster_" and its number. */
  function ClusterName(n: nat): string
  {
    "cluster_" + NatToString(n)
  }

  /** Distinct lines get distinct draw ids, and so do distinct clusters. */
  lemma NamesDistinct(a: nat, b: nat)
    requires a != b
    ensures LineName(a) != LineName(b)
    ensures ClusterName(a) != ClusterName(b)
  {
    assert LineName(a)[5..] == NatToString(a) && LineName(b)[5..] == NatToString(b);
    assert ClusterName(a)[8..] == NatToString(a) && ClusterName(b)[8..] == NatToString(b);
    NatToStringRoundTrip(a);
    NatToStringRoundTrip(b);
  }

  // ---------------------------------------------------------------------------------------
  // clusterHandle and nodeLineClusterHandle

  /** `ClusterDrawProp`, as far as the template touches it. */
  datatype ClusterDrawProp = ClusterDrawProp(clusterNo: Option<nat>, id: Option<string>, labelSize: Option<Size>)

  /** The draw graph's cluster properties and the cluster id map. */
  class ClusterBook {
    var props: map<nat, ClusterDrawProp>
    const clusterIds: Registry

    constructor ()
      ensures props == map[] && clusterIds.Valid() && clusterIds.ids == map[]
      ensures fresh(clusterIds)
    {
      props := map[];
      clusterIds := new Registry();
    }

    /** `clusterHandle`: a cluster the draw graph has already is left alone; a new one
        gets draw properties and, when it has no id yet, the next cluster number and the
        draw id "cluster_" and that number. */
    method ClusterHandle(cluster: nat)
      requires clusterIds.Valid()
      modifies this, clusterIds
      ensures clusterIds.Valid()
      ensures cluster in old(props) ==>
                props == old(props) && clusterIds.ids == old(clusterIds.ids) &&
                clusterIds.order == old(clusterIds.order)
      ensures cluster !in old(props) && cluster in old(clusterIds.ids) ==>
                props == old(props)[cluster := ClusterDrawProp(None, None, None)] &&
                clusterIds.ids == old(clusterIds.ids)
      ensures cluster !in old(props) && cluster !in old(clusterIds.ids) ==>
                var nz := |old(clusterIds.order)|;
                && props == old(props)[cluster := ClusterDrawProp(Some(nz), Some(ClusterName(nz)), None)]
                && clusterIds.ids == old(clusterIds.ids)[cluster := nz]
    {
      if cluster in props {
        return;
      }
      var prop := ClusterDrawProp(None, None, None);
      var nz := clusterIds.Register(cluster);
      if nz.Some? {
        prop := ClusterDrawProp(Some(nz.value), Some(ClusterName(nz.value)), None);
      }
      props := props[cluster := prop];
    }
  }

  /** A line with its two end nodes. */
  datatype LineRef = LineRef(line: nat, tail: nat, head: nat)

  /** A container as nodeLineClusterHandle sees it. */
  datatype Container = Container(id: nat, isSubgraph: bool, isTransparent: bool, isCluster: bool,
                                 directNodes: seq<nat>, allNodes: seq<nat>,
                                 directLines: seq<LineRef>, allLines: seq<LineRef>,
                                 labelText: Option<string>, fontName: string, fontSize: real)

  /** `dfsNeedContinue`: the walk goes on into everything but opaque subgraphs. */
  function DfsNeedContinue(c: Container): (r: bool)
    ensures !c.isSubgraph ==> r
    ensures c.isSubgraph ==> (r <==> c.isTransparent)
  {
    !c.isSubgraph || c.isTransparent
  }

  /** The nodes and lines a container hands out: its own where the walk goes on below it,
      everything inside it where the walk stops. */
  function Contents(c: Container): (r: (seq<nat>, seq<LineRef>))
    ensures DfsNeedContinue(c) ==> r == (c.directNodes, c.directLines)
    ensures !DfsNeedContinue(c) ==> r == (c.allNodes, c.allLines)
  {
    if DfsNeedContinue(c) then (c.directNodes, c.directLines) else (c.allNodes, c.allLines)
  }

  /** The order in which nodeLineClusterHandle meets the ends of lines: for each line its
      head, then its tail. */
  function EndEncounters(lines: seq<LineRef>): (r: seq<nat>)
    ensures |r| == 2 * |lines|
    ensures forall i :: 0 <= i < |lines| ==> r[2 * i] == lines[i].head && r[2 * i + 1] == lines[i].tail
    decreases |lines|
  {
    if lines == [] then []
    else
      var l := lines[|lines| - 1];
      EndEncounters(lines[..|lines| - 1]) + [l.head, l.tail]
  }

  function LineIds(lines: seq<LineRef>): (r: seq<nat>)
    ensures |r| == |lines| && forall i :: 0 <= i < |lines| ==> r[i] == lines[i].line
  {
    seq(|lines|, i requires 0 <= i < |lines| => lines[i].line)
  }

  /** `nodeLineClusterHandle`, as far as ids go: the container's nodes, then each line's
      head, tail and the line itself, then the container as a cluster, whose label is
      measured when it has one. Only the container's own cluster property changes; a
      cluster already known keeps its number and id, and a label-less one its label size. */
  method NodeLineClusterHandle(c: Container, nodeIds: Registry, lineIds: Registry, book: ClusterBook,
                               measure: (string, string, real) -> Size)
    requires nodeIds.Valid() && lineIds.Valid() && book.clusterIds.Valid()
    requires nodeIds != lineIds && nodeIds != book.clusterIds && lineIds != book.clusterIds
    modifies nodeIds, lineIds, book, book.clusterIds
    ensures nodeIds.Valid() && lineIds.Valid() && book.clusterIds.Valid()
    ensures nodeIds.order == SeenAfter(old(nodeIds.order), Contents(c).0 + EndEncounters(Contents(c).1))
    ensures lineIds.order == SeenAfter(old(lineIds.order), LineIds(Contents(c).1))
    ensures !c.isCluster ==> book.props == old(book.props) && book.clusterIds.order == old(book.clusterIds.order)
    ensures c.isCluster ==>
              var nz := |old(book.clusterIds.order)|;
              var base := if c.id in old(book.props) then old(book.props)[c.id]
                          else if c.id in old(book.clusterIds.ids) then ClusterDrawProp(None, None, None)
                          else ClusterDrawProp(Some(nz), Some(ClusterName(nz)), None);
              var labelled := if c.labelText.Some?
                              then base.(labelSize := Some(measure(c.labelText.value, c.fontName, c.fontSize)))
                              else base;
              && book.props == old(book.props)[c.id := labelled]
              && book.clusterIds.ids == (if c.id in old(book.props) || c.id in old(book.clusterIds.ids)
                                         then old(book.clusterIds.ids)
                                         else old(book.clusterIds.ids)[c.id := nz])
  {
    var (nodes, lines) := Contents(c);
    RegisterAll(nodeIds, nodes);
    HandleLines(lines, nodeIds, lineIds);
    SeenAfterAppend(old(nodeIds.order), nodes, EndEncounters(lines));
    if c.isCluster {
      ClusterLabelHandle(c, book, measure);
    }
  }

  /** The cluster step of nodeLineClusterHandle: the container gets its cluster property,
      and its label, when it has one, is measured into it. */
  method ClusterLabelHandle(c: Container, book: ClusterBook, measure: (string, string, real) -> Size)
    requires c.isCluster && book.clusterIds.Valid()
    modifies book, book.clusterIds
    ensures book.clusterIds.Valid()
    ensures var nz := |old(book.clusterIds.order)|;
            var base := if c.id in old(book.props) then old(book.props)[c.id]
                        else if c.id in old(book.clusterIds.ids) then ClusterDrawProp(None, None, None)
                        else ClusterDrawProp(Some(nz), Some(ClusterName(nz)), None);
            var labelled := if c.labelText.Some?
                            then base.(labelSize := Some(measure(c.labelText.value, c.fontName, c.fontSize)))
                            else base;
            && book.props == old(book.props)[c.id := labelled]
            && book.clusterIds.ids == (if c.id in old(book.props) || c.id in old(book.clusterIds.ids)
                                       then old(book.clusterIds.ids)
                                       else old(book.clusterIds.ids)[c.id := nz])
  {
    book.ClusterHandle(c.id);
    if c.labelText.Some? {
      var size := measure(c.labelText.value, c.fontName, c.fontSize);
      book.props := book.props[c.id := book.props[c.id].(labelSize := Some(size))];
    }
  }

  /** The line loop of nodeLineClusterHandle: each line's head, then its tail, then the
      line itself. */
  method HandleLines(lines: seq<LineRef>, nodeIds: Registry, lineIds: Registry)
    requires nodeIds.Valid() && lineIds.Valid() && nodeIds != lineIds
    modifies nodeIds, lineIds
    ensures nodeIds.Valid() && lineIds.Valid()
    ensures nodeIds.order == SeenAfter(old(nodeIds.order), EndEncounters(lines))
    ensures lineIds.order == SeenAfter(old(lineIds.order), LineIds(lines))
  {
    var i := 0;
    while i < |lines|
      invariant 0 <= i <= |lines|
      invariant nodeIds.Valid() && lineIds.Valid()
      invariant nodeIds.order == SeenAfter(old(nodeIds.order), EndEncounters(lines[..i]))
      invariant lineIds.order == SeenAfter(old(lineIds.order), LineIds(lines[..i]))
    {
      assert lines[..i + 1][..i] == lines[..i];
      assert LineIds(lines[..i + 1]) == LineIds(lines[..i]) + [lines[i].line];
      HandleLine(lines[i], nodeIds, lineIds);
      SeenAfterAppend(old(nodeIds.order), EndEncounters(lines[..i]), [lines[i].head, lines[i].tail]);
      SeenAfterAppend(old(lineIds.order), LineIds(lines[..i]), [lines[i].line]);
      i := i + 1;
    }
    assert lines[..i] == lines;
  }

  /** One line: its head and tail as nodes, then the line. */
  method HandleLine(l: LineRef, nodeIds: Registry, lineIds: Registry)
    requires nodeIds.Valid() && lineIds.Valid() && nodeIds != lineIds
    modifies nodeIds, lineIds
    ensures nodeIds.Valid() && lineIds.Valid()
    ensures nodeIds.order == SeenAfter(old(nodeIds.order), [l.head, l.tail])
    ensures lineIds.order == SeenAfter(old(lineIds.order), [l.line])
  {
    var _ := nodeIds.Register(l.head);
    var _ := nodeIds.Register(l.tail);
    var _ := lineIds.Register(l.line);
    assert [l.head] + [l.tail] == [l.head, l.tail];
    SeenAfterAppend(old(nodeIds.order), [l.head], [l.tail]);
  }

  lemma {:induction false} SeenAfterAppend(order: seq<nat>, xs: seq<nat>, ys: seq<nat>)
    ensures SeenAfter(order, xs + ys) == SeenAfter(SeenAfter(order, xs), ys)
    decreases |ys|
  {
    if ys == [] {
      assert xs + ys == xs;
    } else {
      var n := |ys| - 1;
      assert (xs + ys)[..|xs + ys| - 1] == xs + ys[..n];
      SeenAfterAppend(order, xs, ys[..n]);
    }
  }

  // ---------------------------------------------------------------------------------------
  // findFirstHaveTempParent

  /** The container tree: each container's father (the root has none), and which containers
      hold a node template or a line template. */
  datatype Containers = Containers(father: map<nat, nat>, nodeTemp: set<nat>, lineTemp: set<nat>)

  /** `depth` ranks the containers so that every father is strictly shallower than its
      child: the father chain ends. */
  ghost predicate Ranked(cs: Containers, depth: map<nat, nat>)
  {
    forall c :: c in cs.father ==> c in depth && cs.father[c] in depth && depth[cs.father[c]] < depth[c]
  }

  function HasTemp(cs: Containers, nodeTemp: bool, c: nat): bool
  {
    (nodeTemp && c in cs.nodeTemp) || (!nodeTemp && c in cs.lineTemp)
  }

  /** The father chain from `c` up to the root, `c` included. */
  ghost function Chain(cs: Containers, depth: map<nat, nat>, c: nat): (r: seq<nat>)
    requires Ranked(cs, depth)
    ensures |r| >= 1 && r[0] == c
    ensures forall i :: 0 <= i < |r| - 1 ==> r[i] in cs.father && r[i + 1] == cs.father[r[i]]
    ensures r[|r| - 1] !in cs.father
    decreases if c in depth then depth[c] else 0
  {
    if c !in cs.father then [c] else [c] + Chain(cs, depth, cs.father[c])
  }

  /** The nearest container on the chain from `c` up, `c` included, holding the kind of
      template asked for. */
  ghost function FirstTemplateHolder(cs: Containers, depth: map<nat, nat>, nodeTemp: bool, c: nat): (r: Option<nat>)
    requires Ranked(cs, depth)
    ensures r.Some? ==> HasTemp(cs, nodeTemp, r.value)
    decreases if c in depth then depth[c] else 0
  {
    if HasTemp(cs, nodeTemp, c) then Some(c)
    else if c !in cs.father then None
    else FirstTemplateHolder(cs, depth, nodeTemp, cs.father[c])
  }

  /** The holder found lies on the chain and every container before it holds no such
      template; none is found exactly when no container on the chain holds one. */
  lemma {:induction false} FirstTemplateHolderIsNearest(cs: Containers, depth: map<nat, nat>, nodeTemp: bool, c: nat)
    requires Ranked(cs, depth)
    ensures FirstTemplateHolder(cs, depth, nodeTemp, c).None? ==>
              forall i :: 0 <= i < |Chain(cs, depth, c)| ==> !HasTemp(cs, nodeTemp, Chain(cs, depth, c)[i])
    ensures FirstTemplateHolder(cs, depth, nodeTemp, c).Some? ==>
              exists k :: 0 <= k < |Chain(cs, depth, c)| &&
                          Chain(cs, depth, c)[k] == FirstTemplateHolder(cs, depth, nodeTemp, c).value &&
                          forall i :: 0 <= i < k ==> !HasTemp(cs, nodeTemp, Chain(cs, depth, c)[i])
    decreases if c in depth then depth[c] else 0
  {
    if !HasTemp(cs, nodeTemp, c) && c in cs.father {
      var f := cs.father[c];
      FirstTemplateHolderIsNearest(cs, depth, nodeTemp, f);
      var ch, chf := Chain(cs, depth, c), Chain(cs, depth, f);
      assert ch == [c] + chf;
      var r := FirstTemplateHolder(cs, depth, nodeTemp, f);
      if r.Some? {
        var k :| 0 <= k < |chf| && chf[k] == r.value && forall i :: 0 <= i < k ==> !HasTemp(cs, nodeTemp, chf[i]);
        assert ch[k + 1] == r.value;
        assert forall i :: 0 <= i < k + 1 ==> !HasTemp(cs, nodeTemp, ch[i]) by {
          forall i | 0 <= i < k + 1 ensures !HasTemp(cs, nodeTemp, ch[i]) {
            if i > 0 { assert ch[i] == chf[i - 1]; }
          }
        }
      } else {
        assert forall i :: 0 <= i < |chf| ==> !HasTemp(cs, nodeTemp, chf[i]);
        forall i | 0 <= i < |ch| ensures !HasTemp(cs, nodeTemp, ch[i]) {
          if i > 0 { assert ch[i] == chf[i - 1]; } else { assert ch[i] == c; }
        }
      }
    } else if !HasTemp(cs, nodeTemp, c) {
      assert Chain(cs, depth, c) == [c];
    } else {
      assert Chain(cs, depth, c)[0] == c;
    }
  }

  /** `findFirstHaveTempParent`: walk up the fathers from the container until one holds the
      template asked for. */
  method FindFirstHaveTempParent(cs: Containers, ghost depth: map<nat, nat>, nodeTemp: bool, container: Option<nat>)
    returns (p: Option<nat>)
    requires Ranked(cs, depth)
    ensures container.None? ==> p.None?
    ensures container.Some? ==> p == FirstTemplateHolder(cs, depth, nodeTemp, container.value)
  {
    p := container;
    while p.Some?
      invariant container.Some? && p.Some? ==>
                  FirstTemplateHolder(cs, depth, nodeTemp, p.value) == FirstTemplateHolder(cs, depth, nodeTemp, container.value)
      invariant container.Some? && p.None? ==> FirstTemplateHolder(cs, depth, nodeTemp, container.value).None?
      invariant container.None? ==> p.None?
      decreases if p.Some? && p.value in depth then depth[p.value] + 1 else if p.Some? then 1 else 0
    {
      if HasTemp(cs, nodeTemp, p.value) {
        break;
      }
      if p.value in cs.father {
        p := Some(cs.father[p.value]);
      } else {
        p := None;
      }
    }
  }

  // ---------------------------------------------------------------------------------------
  // copyTempProperties

  /** The node shapes the template distinguishes. */
  datatype NodeShape = Record | MRecord | OtherShape(name: string)

  /** A field value of a node's or line's attributes: a node shape or any other value. */
  datatype AttrValue = ShapeValue(shape: NodeShape) | Plain(text: string)

  type Attrs = map<string, AttrValue>

  /** The value a field missing from `attrs` receives: the template container's value when
      there is a template container holding the field, else the global default, else none;
      a field present keeps its value. */
  function Lookup(attrs: Attrs, f: string, template: Option<Attrs>, defaults: Attrs): (r: Option<AttrValue>)
    ensures f in attrs ==> r == Some(attrs[f])
    ensures f !in attrs && template.Some? && f in template.value ==> r == Some(template.value[f])
    ensures f !in attrs && (template.None? || f !in template.value) ==>
              r == (if f in defaults then Some(defaults[f]) else None)
  {
    if f in attrs then Some(attrs[f])
    else if template.Some? && f in template.value then Some(template.value[f])
    else if f in defaults then Some(defaults[f])
    else None
  }

  /** The attributes after the field walk over `fields`, and the last shape-valued field. */
  function Walk(attrs: Attrs, fields: seq<string>, template: Option<Attrs>, defaults: Attrs)
    : (Attrs, Option<string>)
    decreases |fields|
  {
    if fields == [] then (attrs, None)
    else
      var (cur, shapeField) := Walk(attrs, fields[..|fields| - 1], template, defaults);
      var f := fields[|fields| - 1];
      var cur' := if f in cur then cur
                  else match Lookup(cur, f, template, defaults)
                       case Some(v) => cur[f := v]
                       case None => cur;
      (cur', if f in cur' && cur'[f].ShapeValue? then Some(f) else shapeField)
  }

  /** The walk fills every named field by the lookup rule and touches nothing else. */
  lemma {:induction false} WalkFillsFields(attrs: Attrs, fields: seq<string>, template: Option<Attrs>,
                                           defaults: Attrs, f: string)
    ensures var w := Walk(attrs, fields, template, defaults).0;
            && (f !in fields ==> (f in w <==> f in attrs) && (f in attrs ==> w[f] == attrs[f]))
            && (f in fields ==> (f in w <==> Lookup(attrs, f, template, defaults).Some?) &&
                                (f in w ==> w[f] == Lookup(attrs, f, template, defaults).value))
    decreases |fields|
  {
    if fields != [] {
      var n := |fields| - 1;
      WalkFillsFields(attrs, fields[..n], template, defaults, f);
      assert fields == fields[..n] + [fields[n]];
      assert f in fields <==> f in fields[..n] || f == fields[n];
    }
  }

  /** The shape field the walk reports holds a shape. */
  lemma {:induction false} WalkShapeField(attrs: Attrs, fields: seq<string>, template: Option<Attrs>, defaults: Attrs)
    ensures var (w, sf) := Walk(attrs, fields, template, defaults);
            sf.Some? ==> sf.value in fields && sf.value in w && w[sf.value].ShapeValue?
    decreases |fields|
  {
    if fields != [] {
      var n := |fields| - 1;
      WalkShapeField(attrs, fields[..n], template, defaults);
      var (w0, sf0) := Walk(attrs, fields[..n], template, defaults);
      if sf0.Some? {
        WalkFillsFields(attrs, fields[..n], template, defaults, sf0.value);
        WalkFillsFields(attrs, fields, template, defaults, sf0.value);
        assert fields[..n] + [fields[n]] == fields;
      }
    }
  }

  /** `copyTempProperties` over an explicit list of declared fields: nothing for missing
      attributes; otherwise every missing field is filled by the lookup rule, and for node
      attributes the last shape-valued field is replaced by the shape's `post` of the
      filled attributes. */
  method CopyTempProperties(attrs: Option<Attrs>, fields: seq<string>, template: Option<Attrs>,
                            defaults: Attrs, isNodeAttrs: bool, post: (NodeShape, Attrs) -> NodeShape)
    returns (merged: Option<Attrs>)
    ensures attrs.None? ==> merged.None?
    ensures attrs.Some? ==>
              var (w, sf) := Walk(attrs.value, fields, template, defaults);
              merged == Some(if isNodeAttrs && sf.Some? && sf.value in w && w[sf.value].ShapeValue?
                             then w[sf.value := ShapeValue(post(w[sf.value].shape, w))] else w)
  {
    if attrs.None? {
      return None;
    }
    var cur := attrs.value;
    var shapeField: Option<string> := None;
    var i := 0;
    while i < |fields|
      invariant 0 <= i <= |fields|
      invariant (cur, shapeField) == Walk(attrs.value, fields[..i], template, defaults)
    {
      assert fields[..i + 1][..i] == fields[..i];
      var f := fields[i];
      if f !in cur {
        var propVal := if template.Some? && f in template.value then Some(template.value[f]) else None;
        if propVal.None? && f in defaults {
          propVal := Some(defaults[f]);
        }
        if propVal.Some? {
          cur := cur[f := propVal.value];
        }
      }
      if f in cur && cur[f].ShapeValue? {
        shapeField := Some(f);
      }
      i := i + 1;
    }
    assert fields[..i] == fields;
    if isNodeAttrs && shapeField.Some? && shapeField.value in cur && cur[shapeField.value].ShapeValue? {
      cur := cur[shapeField.value := ShapeValue(post(cur[shapeField.value].shape, cur))];
    }
    return Some(cur);
  }

  // ---------------------------------------------------------------------------------------
  // nodeContainerSet and labelOffset

  /** `isRecordShape`. */
  function IsRecordShape(s: NodeShape): (r: bool)
    ensures r <==> s == Record || s == MRecord
  {
    s == Record || s == MRecord
  }

  /** `getFontSize`: the node's font size, 0 when unset. */
  function GetFontSize(fontSize: Option<real>): (r: real)
    ensures fontSize.Some? ==> r == fontSize.value
    ensures fontSize.None? ==> r == 0.0
  {
    if fontSize.Some? then fontSize.value else 0.0
  }

  datatype Labelloc = Top | Center | Bottom

  /** The node attributes nodeContainerSet reads. */
  datatype NodeAttrs = NodeAttrs(shape: NodeShape, height: Option<real>, width: Option<real>,
                                 margin: Option<Size>, fixedSize: Option<bool>, imageSize: Option<Size>,
                                 labelloc: Option<Labelloc>, labelText: Option<string>, fontName: string,
                                 fontSize: Option<real>)

  /** What a node shape says about sizing (`NodeShape`): its default size, whether it takes
      a margin or ignores its label, and its `minContainerSize` and `ratio`. */
  datatype ShapeRules = ShapeRules(defaultHeight: real, defaultWidth: real, needMargin: bool, ignoreLabel: bool,
                                   minContainerSize: (real, real) -> Option<Size>, ratio: Size -> Size)

  /** The foreign measurements nodeContainerSet uses: the label measure and the record
      label compiler (which answers the size of the compiled root cell). */
  datatype Measurer = Measurer(measure: (Option<string>, string, real) -> Size,
                               compile: (Option<string>, string, real, Option<Size>, Size, bool) -> Size)

  /** The label box and the margins: a record's compiled cell without margins; otherwise
      the measured label, with the margin when the shape wants one and one is set. */
  function LabelBox(a: NodeAttrs, rules: ShapeRules, m: Measurer, needFlip: bool): (r: (Size, real, real))
    ensures IsRecordShape(a.shape) ==> r.1 == 0.0 && r.2 == 0.0
    ensures !IsRecordShape(a.shape) && a.margin.Some? && rules.needMargin ==>
              r.1 == a.margin.value.height && r.2 == a.margin.value.width
    ensures !IsRecordShape(a.shape) && (a.margin.None? || !rules.needMargin) ==> r.1 == 0.0 && r.2 == 0.0
  {
    var height := a.height.GetOr(rules.defaultHeight);
    var width := a.width.GetOr(rules.defaultWidth);
    if IsRecordShape(a.shape) then
      (m.compile(a.labelText, a.fontName, GetFontSize(a.fontSize), a.margin, Size(height, width), needFlip), 0.0, 0.0)
    else
      var box := m.measure(a.labelText, a.fontName, GetFontSize(a.fontSize));
      if a.margin.Some? && rules.needMargin then (box, a.margin.value.height, a.margin.value.width)
      else (box, 0.0, 0.0)
  }

  /** What nodeContainerSet decides for a node: its box, its label size and, for a record,
      the compiled cell. A sized node always takes this label size; a node of fixed size
      takes it (the bare label box) only when it has no label size yet. */
  datatype Sizing = Sizing(box: Size, labelSize: Size, labelCell: Option<Size>)

  /** The box a sized node gets before `ratio`: the shape's minimum container for the label
      (or the image, if larger, each with the margins), widened to the requested size. */
  function PreRatioBox(a: NodeAttrs, rules: ShapeRules, labelSize: Size, verMargin: real, horMargin: real)
    : (r: Option<Size>)
    ensures var min := if a.imageSize.Some? then
                         rules.minContainerSize(Max(a.imageSize.value.height + verMargin, labelSize.height),
                                                Max(a.imageSize.value.width + horMargin, labelSize.width))
                       else rules.minContainerSize(labelSize.height, labelSize.width);
            && (r.None? <==> min.None?)
            && (r.Some? ==> r.value.height >= a.height.GetOr(rules.defaultHeight) &&
                            r.value.width >= a.width.GetOr(rules.defaultWidth) &&
                            r.value.height >= min.value.height && r.value.width >= min.value.width)
  {
    var min := if a.imageSize.Some? then
                 rules.minContainerSize(Max(a.imageSize.value.height + verMargin, labelSize.height),
                                        Max(a.imageSize.value.width + horMargin, labelSize.width))
               else rules.minContainerSize(labelSize.height, labelSize.width);
    if min.None? then None
    else Some(Size(Max(min.value.height, a.height.GetOr(rules.defaultHeight)),
                   Max(min.value.width, a.width.GetOr(rules.defaultWidth))))
  }

  /** `nodeContainerSet`'s sizing: a fixed-size node or one whose shape ignores its label
      has exactly the requested (or default) size and the bare label box as label size;
      any other node gets `ratio` of its pre-ratio box, the label size being label box plus
      margins, and is refused when the shape answers no minimum container. */
  function NodeSizing(a: NodeAttrs, rules: ShapeRules, m: Measurer, needFlip: bool): (r: Result<Sizing>)
    ensures a.fixedSize == Some(true) || rules.ignoreLabel ==>
              r.Ok? && r.value.box == Size(a.height.GetOr(rules.defaultHeight), a.width.GetOr(rules.defaultWidth)) &&
              r.value.labelSize == LabelBox(a, rules, m, needFlip).0
    ensures !(a.fixedSize == Some(true) || rules.ignoreLabel) ==>
              var (lb, vm, hm) := LabelBox(a, rules, m, needFlip);
              var ls := Size(vm + lb.height, hm + lb.width);
              var pre := PreRatioBox(a, rules, ls, vm, hm);
              && (pre.None? <==> r.Err?)
              && (r.Err? ==> r.error.IllegalArgument?)
              && (r.Ok? ==> r.value.box == rules.ratio(pre.value) && r.value.labelSize == ls)
    ensures r.Ok? ==> (r.value.labelCell.Some? <==> IsRecordShape(a.shape))
  {
    var (lb, vm, hm) := LabelBox(a, rules, m, needFlip);
    var cell := if IsRecordShape(a.shape) then Some(lb) else None;
    if a.fixedSize == Some(true) || rules.ignoreLabel then
      Ok(Sizing(Size(a.height.GetOr(rules.defaultHeight), a.width.GetOr(rules.defaultWidth)), lb, cell))
    else
      var ls := Size(vm + lb.height, hm + lb.width);
      match PreRatioBox(a, rules, ls, vm, hm)
      case None => Err(IllegalArgument("Node Shape can not return null box size from minContainerSize"))
      case Some(pre) => Ok(Sizing(rules.ratio(pre), ls, cell))
  }

  /** `labelOffset`: nothing for an unset or centred label; otherwise the vertical offset
      `Labelloc.getY` gives for the label box and margins centred on the origin. */
  function LabelOffset(a: NodeAttrs, labelBox: Size, verMargin: real, horMargin: real,
                       getY: (Labelloc, Point, Point, Size) -> real): (r: Option<real>)
    ensures a.labelloc.None? || a.labelloc == Some(Center) ==> r.None?
    ensures a.labelloc.Some? && a.labelloc != Some(Center) ==>
              var hh := (verMargin + labelBox.height) / 2.0;
              var hw := (horMargin + labelBox.width) / 2.0;
              r == Some(getY(a.labelloc.value, Point(-hw, -hh), Point(hw, hh), labelBox))
  {
    if a.labelloc.None? || a.labelloc == Some(Center) then None
    else
      var hh := (verMargin + labelBox.height) / 2.0;
      var hw := (horMargin + labelBox.width) / 2.0;
      Some(getY(a.labelloc.value, Point(-hw, -hh), Point(hw, hh), labelBox))
  }

  /** A node's draw properties, as far as nodeContainerSet sets them. */
  class NodeDrawProp {
    var box: Box
    var labelSize: Option<Size>
    var labelCell: Option<Size>
    var labelVerOffset: Option<real>

    constructor ()
      ensures labelSize.None? && labelCell.None? && labelVerOffset.None?
    {
      box := Box(0.0, 0.0, 0.0, 0.0);
      labelSize := None;
      labelCell := None;
      labelVerOffset := None;
    }

    /** `nodeContainerSet`: the node's box put at the origin, left and up borders 0, right
        and down borders its width and height; its label size and, for a record, its cell;
        its label offset when the label is not centred. A node of fixed size, met again,
        keeps the label size it already has. When the shape answers no minimum container
        the call is refused after a record's cell was set. */
    method NodeContainerSet(a: NodeAttrs, rules: ShapeRules, m: Measurer, needFlip: bool,
                            getY: (Labelloc, Point, Point, Size) -> real)
      returns (r: Result<()>)
      modifies this
      ensures var s := NodeSizing(a, rules, m, needFlip);
              var (lb, vm, hm) := LabelBox(a, rules, m, needFlip);
              && (r.Err? <==> s.Err?)
              && (s.Err? ==> r == Err(s.error) && box == old(box) && labelSize == old(labelSize) &&
                             labelVerOffset == old(labelVerOffset) &&
                             labelCell == (if IsRecordShape(a.shape) then Some(lb) else old(labelCell)))
              && (s.Ok? ==>
                    && box == Box(0.0, s.value.box.width, 0.0, s.value.box.height)
                    && labelSize == (if (a.fixedSize == Some(true) || rules.ignoreLabel) && old(labelSize).Some?
                                     then old(labelSize) else Some(s.value.labelSize))
                    && labelCell == (if IsRecordShape(a.shape) then Some(lb) else old(labelCell))
                    && labelVerOffset == (if LabelOffset(a, lb, vm, hm, getY).Some?
                                          then LabelOffset(a, lb, vm, hm, getY) else old(labelVerOffset)))
    {
      var (lb, vm, hm) := LabelBox(a, rules, m, needFlip);
      if IsRecordShape(a.shape) {
        labelCell := Some(lb);
      }
      var s := NodeSizing(a, rules, m, needFlip);
      if s.Err? {
        return Err(s.error);
      }
      box := Box(0.0, s.value.box.width, 0.0, s.value.box.height);
      if !(a.fixedSize == Some(true) || rules.ignoreLabel) || labelSize.None? {
        labelSize := Some(s.value.labelSize);
      }
      var offset := LabelOffset(a, lb, vm, hm, getY);
      if offset.Some? {
        labelVerOffset := offset;
      }
      return Ok(());
    }
  }
}
