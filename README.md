# graph-support layout core, modelled in Dafny

This project models the sequential helpers of the graph-support dot layout engine. The ranking, crossing minimisation and coordinate stages sit between these helpers. The helpers modelled are:

- edge legalisation, and the cyclic compass-port poll (`DotLayoutEngine`);
- grouping self loops by their end ports and cells, and drawing them around the node with growing offsets (`PortNodeSizeExpanderV2`);
- the orthogonal six-point self loops (`OrthoNodeSizeExpanderV2`);
- the guarded router box (`RouterBox`);
- the template bookkeeping of `AbstractLayoutEngine`: input checks, first-seen ids, the nearest template container, the default merge, and node box sizing.

Coordinates and sizes are `real`. Foreign collaborators are function parameters:
- text measurement and record compilation
- shape rules (`minContainerSize`, `ratio`, `post`)
- the approximate comparison, port end points, port movement under a rank direction, and cell lookup
- label placement (`Labelloc.getY`)
- the digraph's `reverseEdge` and `removeEdge`, modelled as the `DotDigraph` methods of the same name (see "Left out")

Modules, one file each:
- `Wrappers`: option, result and error values.
- `Geometry`: points, sizes, boxes, ports, rank directions.
- `PortPolls`: `PortPoll` and its iterator, as classes.
- `DotEngine`: `DLine`, the `DotDigraph` class with handleLegalLine, line defaults, splines dispatch, shifter strategies.
- `SelfLoopGroups`: group keys, their equality and hash, direction tables, grouping.
- `PortExpander`: the three loop routines and initExpander over a `DrawGraph` class.
- `OrthoExpander`: drawSelfLine.
- `Routing`: the `RouterBox` class.
- `LayoutTemplate`: `Registry`, `ClusterBook` and `NodeDrawProp` classes, the father walk, the merge and sizing.

Loops that the source runs become methods with loop invariants. Each is proved against a specification function (`Legalised`, `Rotation`, `GroupsOf`, `DrawGroups`, `DrawAllLoops`, `SeenAfter`, `FirstTemplateHolder`, `Walk`). The properties are proved about those functions.

## Model

| member | source | states |
|---|---|---|
| PortPolls.TouchedPorts | src/main/java/org/graphper/layout/dot/DotLayoutEngine.java:437-453 | the ports collected for a cell are one per node border the cell box lies on (west, east, north, south tested with a 0.01 tolerance), in that order, each at most once, so at most four |
| PortPolls.PortsForInOrder | src/main/java/org/graphper/layout/dot/DotLayoutEngine.java:437-460 | the four border tests add their ports in poll order, with no repeats, at most four |
| PortPolls.InPollOrderBounded | src/test/java/org/graphper/layout/dot/PortPollTest.java:46-47 | a poll in poll order has at most four ports, the i-th ranking at least i |
| PortPolls.PortPoll.NewPort | src/main/java/org/graphper/layout/dot/DotLayoutEngine.java:437-453 | a new poll holds exactly the touched ports with the cursor at 0 |
| PortPolls.PortPoll.Size | src/main/java/org/graphper/layout/dot/DotLayoutEngine.java:474-479 | the size is at most four and is 0 exactly for an empty poll |
| PortPolls.PortPoll.NextPort | src/main/java/org/graphper/layout/dot/DotLayoutEngine.java:462-472 | an empty poll answers no port and keeps its cursor; otherwise it answers the port at the cursor and moves the cursor one place round the cycle, staying in range |
| PortPolls.Advance | src/main/java/org/graphper/layout/dot/DotLayoutEngine.java:466-470 | the cursor after one call stays below the size and is one place further round the cycle |
| PortPolls.AdvanceByWraps | src/main/java/org/graphper/layout/dot/DotLayoutEngine.java:462-472 | k calls (k at most the size) move the cursor k places round the cycle |
| PortPolls.HandedOutAt | src/main/java/org/graphper/layout/dot/DotLayoutEngine.java:462-472 | the i-th port handed out from a cursor is the one i places further round the cycle |
| PortPolls.FullRoundIsRotation | src/test/java/org/graphper/layout/dot/PortPollTest.java:49-54 | a full round of calls hands out the rotation of the poll at the cursor and brings the cursor back to where it started |
| PortPolls.Rotation | src/main/java/org/graphper/layout/dot/DotLayoutEngine.java:481-516 | one cycle has as many ports as the poll and is a permutation of them |
| PortPolls.SinglePortRepeats | src/test/java/org/graphper/layout/dot/PortPollTest.java:59-65 | a one-port poll hands out that port on every call |
| PortPolls.PortPoll.Iterator | src/main/java/org/graphper/layout/dot/DotLayoutEngine.java:481-487 | the iterator starts a walk at the current cursor |
| PortPolls.PollPortIterator.constructor | src/main/java/org/graphper/layout/dot/DotLayoutEngine.java:497-500 | a fresh walk records its cycle start and has not started |
| PortPolls.PollPortIterator.Next | src/main/java/org/graphper/layout/dot/DotLayoutEngine.java:483-515 | past the end of the cycle the walk is refused as an illegal argument ("Do not have elements") and changes nothing, and the empty poll's walk has no such element; otherwise it hands out the port at the cursor and advances |
| PortPolls.ForEachPort | src/main/java/org/graphper/layout/dot/DotLayoutEngine.java:481-516 | iterating a poll visits exactly size ports, in cyclic order from the cursor, and leaves the poll as it was |
| DotEngine.Orient | src/main/java/org/graphper/layout/dot/DotLayoutEngine.java:283-307 | an edge as legalisation leaves it runs with the ranks, keeps its identity and its two ends, and is a self-loop exactly when it was; a forward edge is untouched, a backward one has its ends swapped and keeps its weight, rank length and label |
| DotEngine.LegalisedIsForward | src/main/java/org/graphper/layout/dot/DotLayoutEngine.java:280-316 | after handleLegalLine every remaining edge has tail rank at most head rank and none is a self-loop |
| DotEngine.LegalisedKeepsEdges | src/main/java/org/graphper/layout/dot/DotLayoutEngine.java:280-316 | every edge that is not a self-loop survives, reversed exactly when it ran against the ranks; nothing else is dropped |
| DotEngine.AddSelfLinesPerNode | src/main/java/org/graphper/layout/dot/DotLayoutEngine.java:309-315 | each node self-line list grows by exactly its own loops, in order |
| DotEngine.DotDigraph.ReverseEdge | src/main/java/org/graphper/layout/dot/DotLayoutEngine.java:303-307 | the digraph's `reverseEdge` as this model takes it: the edge with that identity is turned round where it stands, every other edge untouched |
| DotEngine.DotDigraph.RemoveEdge | src/main/java/org/graphper/layout/dot/DotLayoutEngine.java:309-315 | the digraph's `removeEdge` as this model takes it: removal answers whether the edge was there and takes out just that edge, the others keeping their order |
| DotEngine.DotDigraph.HandleLegalLine | src/main/java/org/graphper/layout/dot/DotLayoutEngine.java:280-316 | the digraph becomes the legalised edge list and the self-loops are appended to their owners self-line lists |
| DotEngine.DotDigraph.ReverseLines | src/main/java/org/graphper/layout/dot/DotLayoutEngine.java:303-307 | every collected backward edge is reversed in place |
| DotEngine.DotDigraph.MoveSelfLoops | src/main/java/org/graphper/layout/dot/DotLayoutEngine.java:309-315 | every self-loop is removed and appended to its node list exactly when the removal succeeds |
| DotEngine.ScanLines | src/main/java/org/graphper/layout/dot/DotLayoutEngine.java:283-301 | the scan collects exactly the backward edges and exactly the self-loops, each in visiting order |
| DotEngine.WithoutSelfLoops | src/main/java/org/graphper/layout/dot/DotLayoutEngine.java:283-315 | removing the self-loops after the reversals leaves the legalised edges |
| DotEngine.NewDLine | src/main/java/org/graphper/layout/dot/DotLayoutEngine.java:185-187 | a created edge takes the weight from the attributes, else the line weight, and the rank length from the attributes, else 1 |
| DotEngine.LineLabelSize | src/main/java/org/graphper/layout/dot/DotLayoutEngine.java:410-429 | an assembled label wins (flipped when the graph is flipped); otherwise a label node gets the label measured with font size 0 when unset, and other lines get none |
| DotEngine.Splines | src/main/java/org/graphper/layout/dot/DotLayoutEngine.java:388-408 | nothing is routed when splines is unset or NONE, there are no line properties or the graph has no vertices; otherwise exactly the first router accepting the mode routes |
| DotEngine.ShifterStrategies | src/main/java/org/graphper/layout/dot/DotLayoutEngine.java:111-116 | top-to-bottom gets no shifter; every other direction exactly one flip shifter |
| SelfLoopGroups.PortDirection | src/main/java/org/graphper/layout/dot/PortNodeSizeExpanderV2.java:376-390 | north maps to up, south to down, the three west ports to left, everything else (no port included) to right |
| SelfLoopGroups.SameCellHorDirection | src/main/java/org/graphper/layout/dot/PortNodeSizeExpanderV2.java:392-398 | the three south ports go down, every other port up |
| SelfLoopGroups.SameCellVerDirection | src/main/java/org/graphper/layout/dot/PortNodeSizeExpanderV2.java:400-406 | the three west ports go left, every other port right |
| SelfLoopGroups.SameCellPairDirection | src/main/java/org/graphper/layout/dot/PortNodeSizeExpanderV2.java:314-367 | a port pair goes left exactly when it is one of the left pairs in either order |
| SelfLoopGroups.SameCellPairDirectionSymmetric | src/main/java/org/graphper/layout/dot/PortNodeSizeExpanderV2.java:314-331 | swapping tail and head ports gives the same direction |
| SelfLoopGroups.DiagonalPointDirection | src/main/java/org/graphper/layout/dot/PortNodeSizeExpanderV2.java:369-374 | left exactly when the midpoint of the two end points lies left of the node centre |
| SelfLoopGroups.IsOnlySameVer | src/main/java/org/graphper/layout/dot/PortNodeSizeExpanderV2.java:470-494 | isOnlySameHor and isOnlySameVer are never both true, and both are false for the same point or different cells |
| SelfLoopGroups.KeyEqualsIsDirectOrSwapped | src/main/java/org/graphper/layout/dot/PortNodeSizeExpanderV2.java:508-523 | two keys are equal exactly when their ports and cells match directly or with tail and head swapped |
| SelfLoopGroups.KeyEqualsIsEquivalence | src/main/java/org/graphper/layout/dot/PortNodeSizeExpanderV2.java:508-523 | key equality is reflexive, holds between a key and its swapped twin, and is symmetric and transitive |
| SelfLoopGroups.EndCodeInjective | src/main/java/org/graphper/layout/dot/PortNodeSizeExpanderV2.java:508-523 | the code of a (port, cell) end determines the end |
| SelfLoopGroups.Int32 | src/main/java/org/graphper/layout/dot/PortNodeSizeExpanderV2.java:525-529 | 32-bit integer arithmetic: the result is in the signed range and congruent modulo 2^32 |
| SelfLoopGroups.EqualKeysHashAlike | src/main/java/org/graphper/layout/dot/PortNodeSizeExpanderV2.java:508-529 | equal keys have equal hash codes |
| SelfLoopGroups.NewGroupKey | src/main/java/org/graphper/layout/dot/PortNodeSizeExpanderV2.java:278-300 | a line with no ports and no cells is keyed at the node centre; the key keeps the line ports, and a same-point key has one point |
| SelfLoopGroups.FilterMembers | src/main/java/org/graphper/layout/dot/PortNodeSizeExpanderV2.java:245-254 | the entries of a group are exactly the entries with an equal key |
| SelfLoopGroups.FindGroup | src/main/java/org/graphper/layout/dot/PortNodeSizeExpanderV2.java:245-254 | a found group has an equal key; no group is found only when no group key is equal |
| SelfLoopGroups.AddLineToGroup | src/main/java/org/graphper/layout/dot/PortNodeSizeExpanderV2.java:245-254 | adding a line extends a group or opens one new group |
| SelfLoopGroups.AddLineToGroupKeepsGrouping | src/main/java/org/graphper/layout/dot/PortNodeSizeExpanderV2.java:245-254 | adding a line keeps the grouping invariant: distinct keys, each group its matching entries, every entry grouped |
| SelfLoopGroups.Entries | src/main/java/org/graphper/layout/dot/PortNodeSizeExpanderV2.java:65-79 | entries exist for exactly the self lines with draw properties, in self-loop index order |
| SelfLoopGroups.GroupSelfLine | src/main/java/org/graphper/layout/dot/PortNodeSizeExpanderV2.java:61-80 | the groups are exactly the grouping of the entries of the self lines that have draw properties |
| SelfLoopGroups.EntryInExactlyOneGroup | src/main/java/org/graphper/layout/dot/PortNodeSizeExpanderV2.java:65-79 | every grouped line lands in exactly one group |
| SelfLoopGroups.GroupsKeepIndexOrder | src/main/java/org/graphper/layout/dot/PortNodeSizeExpanderV2.java:65-79 | within a group, lines keep self-loop index order |
| PortExpander.AddLabel | src/main/java/org/graphper/layout/dot/PortNodeSizeExpanderV2.java:207-243 | the label centre is half a label width (horizontal) or height (vertical) beyond the last point on the outward side, and the width or height is returned |
| PortExpander.SamePointDrawing | src/main/java/org/graphper/layout/dot/PortNodeSizeExpanderV2.java:107-141 | a same-point key draws two points, the tail point and the point the offset beyond the node border in the port's direction; any other key draws nothing |
| PortExpander.UpDownDrawing | src/main/java/org/graphper/layout/dot/PortNodeSizeExpanderV2.java:143-169 | for an only-same-horizontal key, three points: tail, one outward, head; nothing otherwise |
| PortExpander.LeftRightDirection | src/main/java/org/graphper/layout/dot/PortNodeSizeExpanderV2.java:171-205 | the outward direction of the left-right routine is left or right |
| PortExpander.LeftRightDrawing | src/main/java/org/graphper/layout/dot/PortNodeSizeExpanderV2.java:171-205 | for any other key, tail, outward to the left or right, head; nothing for the other two kinds |
| PortExpander.ExactlyOneRoutineDraws | src/main/java/org/graphper/layout/dot/PortNodeSizeExpanderV2.java:107-175 | for every key exactly one of the three routines emits points |
| PortExpander.EntryExtentIsLabel | src/main/java/org/graphper/layout/dot/PortNodeSizeExpanderV2.java:85-103 | the extent a loop adds is its label extent, 0 without label, never negative |
| PortExpander.DrawThree | src/main/java/org/graphper/layout/dot/PortNodeSizeExpanderV2.java:107-205 | running the three routines in turn draws the entry drawing once |
| PortExpander.SetSamePointLine | src/main/java/org/graphper/layout/dot/PortNodeSizeExpanderV2.java:107-141 | the same-point routine draws its drawing into the line and returns its extent |
| PortExpander.SetUpDownLine | src/main/java/org/graphper/layout/dot/PortNodeSizeExpanderV2.java:143-169 | the up-down routine draws its drawing and returns its extent |
| PortExpander.SetLeftRightLine | src/main/java/org/graphper/layout/dot/PortNodeSizeExpanderV2.java:171-205 | the left-right routine draws its drawing and returns its extent |
| PortExpander.DrawEntry | src/main/java/org/graphper/layout/dot/PortNodeSizeExpanderV2.java:88-102 | one entry gets the three routines at the current offset |
| PortExpander.DrawGroup | src/main/java/org/graphper/layout/dot/PortNodeSizeExpanderV2.java:85-103 | a group draws its entries at the accumulated offsets |
| PortExpander.InitExpander | src/main/java/org/graphper/layout/dot/PortNodeSizeExpanderV2.java:82-105 | the line properties become the drawing of every group |
| PortExpander.NextIntervalStep | src/main/java/org/graphper/layout/dot/PortNodeSizeExpanderV2.java:85-103 | the offset for the next loop grows by the interval plus the label extent |
| PortExpander.LaterLoopsFurtherOut | src/main/java/org/graphper/layout/dot/PortNodeSizeExpanderV2.java:85-103 | within a group, a later loop offset exceeds an earlier one by at least the base interval (strictly, for a positive interval) |
| PortExpander.DrawEntriesOnlyTheirLines | src/main/java/org/graphper/layout/dot/PortNodeSizeExpanderV2.java:85-103 | drawing a group leaves every line outside the group unchanged |
| PortExpander.SelfLineEnds | src/main/java/org/graphper/layout/dot/PortNodeSizeExpanderV2.java:65-79 | each self loop with properties contributes its ends, the others nothing |
| PortExpander.ExpandNode | src/main/java/org/graphper/layout/dot/PortNodeSizeExpanderV2.java:48-105 | grouping then drawing: the groups are the grouping of the node self lines and the properties their drawing |
| OrthoExpander.AdjustPortPoint | src/main/java/org/graphper/layout/dot/OrthoNodeSizeExpanderV2.java:114-118 | an end point relative to the node is translated by the node centre |
| OrthoExpander.AdjustedEnds | src/main/java/org/graphper/layout/dot/OrthoNodeSizeExpanderV2.java:55-56 | both ends of a key are translated, and a key with one point keeps one point |
| OrthoExpander.NextOffsets | src/main/java/org/graphper/layout/dot/OrthoNodeSizeExpanderV2.java:80-85 | per loop top and bottom offsets grow by at least the interval and clear half the label height; the right offset grows by the larger of label width and interval |
| OrthoExpander.InnerXInside | src/main/java/org/graphper/layout/dot/OrthoNodeSizeExpanderV2.java:58-97 | a no-port loop turns strictly inside the node, and later loops turn strictly further left, so the inner x values are pairwise distinct |
| OrthoExpander.LoopPoints | src/main/java/org/graphper/layout/dot/OrthoNodeSizeExpanderV2.java:85-105 | six axis-aligned points along the top, right and bottom lines; a loop with ports or cells joins its end points, any other is closed at the node centre line |
| OrthoExpander.DrawLoop | src/main/java/org/graphper/layout/dot/OrthoNodeSizeExpanderV2.java:60-110 | a line without properties or already drawn is skipped; otherwise its points are replaced by the loop at the next offsets and a label is centred at (right - width/2, node y) |
| OrthoExpander.DrawnLoopClearsEarlier | src/main/java/org/graphper/layout/dot/OrthoNodeSizeExpanderV2.java:80-95 | with a positive interval, a drawn loop runs strictly outside every earlier one on all three sides |
| OrthoExpander.DrawLoops | src/main/java/org/graphper/layout/dot/OrthoNodeSizeExpanderV2.java:58-110 | a group keeps the key set of the line properties |
| OrthoExpander.DrawAllLoops | src/main/java/org/graphper/layout/dot/OrthoNodeSizeExpanderV2.java:53-110 | every group keeps the key set of the line properties |
| OrthoExpander.DrawLoopsOffsetsGrow | src/main/java/org/graphper/layout/dot/OrthoNodeSizeExpanderV2.java:80-87 | the offsets never shrink within a group |
| OrthoExpander.DrawAllLoopsOffsetsGrow | src/main/java/org/graphper/layout/dot/OrthoNodeSizeExpanderV2.java:47-111 | the offsets never shrink across all groups of the node |
| OrthoExpander.DrawLoopsOnlyTheirLines | src/main/java/org/graphper/layout/dot/OrthoNodeSizeExpanderV2.java:58-110 | lines outside a group are unchanged by drawing it |
| OrthoExpander.LoopJoinsEndPoints | src/main/java/org/graphper/layout/dot/OrthoNodeSizeExpanderV2.java:89-105 | a drawn loop starts and ends at its ends, or at one inner point |
| OrthoExpander.DrawOneLoop | src/main/java/org/graphper/layout/dot/OrthoNodeSizeExpanderV2.java:60-110 | one loop is drawn as the specification says |
| OrthoExpander.DrawGroupLoops | src/main/java/org/graphper/layout/dot/OrthoNodeSizeExpanderV2.java:53-111 | one group is drawn as the specification says |
| OrthoExpander.DrawSelfLine | src/main/java/org/graphper/layout/dot/OrthoNodeSizeExpanderV2.java:42-112 | no groups means nothing changes; otherwise the properties become the drawing of all groups from zero offsets with the interval halved |
| Routing.InRange | src/main/java/org/graphper/layout/dot/RouterBox.java:105-107 | inclusive at both ends |
| Routing.RouterBox.constructor | src/main/java/org/graphper/layout/dot/RouterBox.java:30-37 | the box has the given borders and node |
| Routing.RouterBox.SetLeftBorder | src/main/java/org/graphper/layout/dot/RouterBox.java:39-43 | refused, with nothing changed, exactly when the new left border is right of the right border; keeps the borders in order |
| Routing.RouterBox.SetRightBorder | src/main/java/org/graphper/layout/dot/RouterBox.java:45-49 | refused exactly when the new right border is left of the left border |
| Routing.RouterBox.SetUpBorder | src/main/java/org/graphper/layout/dot/RouterBox.java:51-55 | refused exactly when the new up border is below the down border |
| Routing.RouterBox.SetDownBorder | src/main/java/org/graphper/layout/dot/RouterBox.java:57-61 | refused exactly when the new down border is above the up border |
| Routing.RouterBox.In | src/main/java/org/graphper/layout/dot/RouterBox.java:63-77 | a point is in when both ranges hold, inclusively; no point is never in |
| Routing.RouterBox.CloserHorizontalWall | src/main/java/org/graphper/layout/dot/RouterBox.java:79-90 | always the left or right wall; the left one exactly when it is at least as near; never farther than the other wall |
| Routing.RouterBox.CloserVerticalWall | src/main/java/org/graphper/layout/dot/RouterBox.java:92-103 | always the up or down wall; the up one exactly when it is at least as near; never farther than the other wall |
| Routing.CloserWallWithinHalf | src/main/java/org/graphper/layout/dot/RouterBox.java:79-90 | inside the box the chosen wall is at most half the width away and in range |
| Routing.CloserVerticalWallWithinHalf | src/main/java/org/graphper/layout/dot/RouterBox.java:92-103 | inside the box the chosen wall is at most half the height away and in range |
| Routing.RouterBox.MinGuarantee | src/main/java/org/graphper/layout/dot/RouterBox.java:109-116 | afterwards width and height meet the minimum; right and down borders never move; a box large enough is unchanged |
| LayoutTemplate.CheckLayoutArgs | src/main/java/org/graphper/layout/AbstractLayoutEngine.java:82-84 | a missing graph is refused as a null argument, a graph without nodes as an illegal argument, anything else accepted |
| LayoutTemplate.Registry.constructor | src/main/java/org/graphper/layout/AbstractLayoutEngine.java:82-123 | the id maps start empty |
| LayoutTemplate.Registry.Register | src/main/java/org/graphper/layout/AbstractLayoutEngine.java:341-347 | an element seen before keeps its id and nothing changes; a new one gets the map size as id |
| LayoutTemplate.RegistryIdsConsecutive | src/main/java/org/graphper/layout/AbstractLayoutEngine.java:341-347 | ids are distinct and are exactly 0 to n-1 |
| LayoutTemplate.SeenAfterMembers | src/main/java/org/graphper/layout/AbstractLayoutEngine.java:341-347 | registration keeps the earlier order in front and registers exactly what was seen |
| LayoutTemplate.RegisterAll | src/main/java/org/graphper/layout/AbstractLayoutEngine.java:281-283 | a node loop registers its nodes in first-seen order |
| LayoutTemplate.NatToStringRoundTrip | src/main/java/org/graphper/layout/AbstractLayoutEngine.java:382-388 | the decimal numeral of an id reads back as the id |
| LayoutTemplate.NamesDistinct | src/main/java/org/graphper/layout/AbstractLayoutEngine.java:382-388 | distinct line numbers give distinct "line_" ids and distinct cluster numbers distinct "cluster_" ids |
| LayoutTemplate.ClusterBook.ClusterHandle | src/main/java/org/graphper/layout/AbstractLayoutEngine.java:394-411 | a registered cluster changes nothing; a new one gets draw properties and, if new to the id map, the next number and "cluster_" id |
| LayoutTemplate.Contents | src/main/java/org/graphper/layout/AbstractLayoutEngine.java:255-278 | direct nodes and lines where the walk continues (everything but an opaque subgraph), all of them where it stops |
| LayoutTemplate.EndEncounters | src/main/java/org/graphper/layout/AbstractLayoutEngine.java:286-293 | each line meets its head, then its tail |
| LayoutTemplate.NodeLineClusterHandle | src/main/java/org/graphper/layout/AbstractLayoutEngine.java:259-310 | nodes, then each line head, tail and the line are registered in that order; a cluster is handled as the cluster step says; a plain container leaves the clusters alone |
| LayoutTemplate.ClusterLabelHandle | src/main/java/org/graphper/layout/AbstractLayoutEngine.java:296-309 | only the container's own cluster property changes: a known one keeps its number and id, a new one gets the next number; the label, when there is one, is measured into it and otherwise the label size stays |
| LayoutTemplate.HandleLines | src/main/java/org/graphper/layout/AbstractLayoutEngine.java:286-293 | the line loop registers ends and lines in order |
| LayoutTemplate.HandleLine | src/main/java/org/graphper/layout/AbstractLayoutEngine.java:288-292 | one line registers head, tail and the line |
| LayoutTemplate.SeenAfterAppend | src/main/java/org/graphper/layout/AbstractLayoutEngine.java:281-293 | registering two runs in turn is registering their concatenation |
| LayoutTemplate.Chain | src/main/java/org/graphper/layout/AbstractLayoutEngine.java:491-504 | the father chain starts at the container and follows the fathers to the root |
| LayoutTemplate.FirstTemplateHolder | src/main/java/org/graphper/layout/AbstractLayoutEngine.java:491-504 | a found container holds the template asked for |
| LayoutTemplate.FirstTemplateHolderIsNearest | src/main/java/org/graphper/layout/AbstractLayoutEngine.java:491-504 | the found container is on the chain and nearer containers hold none; none is found only if no container on the chain holds one |
| LayoutTemplate.FindFirstHaveTempParent | src/main/java/org/graphper/layout/AbstractLayoutEngine.java:491-504 | the walk up the fathers finds the nearest holder, or none, starting at the container itself |
| LayoutTemplate.Lookup | src/main/java/org/graphper/layout/AbstractLayoutEngine.java:533-554 | a present field keeps its value; a missing one takes the template value, else the default, else stays missing |
| LayoutTemplate.WalkFillsFields | src/main/java/org/graphper/layout/AbstractLayoutEngine.java:528-560 | the field walk fills every declared field by the lookup rule and touches no other |
| LayoutTemplate.WalkShapeField | src/main/java/org/graphper/layout/AbstractLayoutEngine.java:556-559 | the recorded shape field holds a shape |
| LayoutTemplate.CopyTempProperties | src/main/java/org/graphper/layout/AbstractLayoutEngine.java:516-569 | missing attributes: nothing; otherwise the walk result, with the last shape field replaced by its post for node attributes |
| LayoutTemplate.PreRatioBox | src/main/java/org/graphper/layout/AbstractLayoutEngine.java:447-458 | the box passed to ratio is at least the requested size and the minimum container; none when the shape answers none |
| LayoutTemplate.NodeSizing | src/main/java/org/graphper/layout/AbstractLayoutEngine.java:413-469 | fixed size or a label-ignoring shape gives exactly the requested size; otherwise ratio of the pre-ratio box, refused when no minimum container exists; a cell only for records |
| LayoutTemplate.LabelOffset | src/main/java/org/graphper/layout/AbstractLayoutEngine.java:474-489 | no offset for an unset or centred label; otherwise the offset of the label centred on the origin |
| LayoutTemplate.NodeDrawProp.NodeContainerSet | src/main/java/org/graphper/layout/AbstractLayoutEngine.java:413-472 | borders left 0, up 0, right width, down height; a sized node takes the label size with margins, a fixed-size one keeps a label size it already has and otherwise takes the label box; a record's cell is set; a refused node keeps everything but a record cell |

## Left out

- The ranking, ordering, coordinate and routing stages that the dot engine calls are not part of this model. Nor is the `needDeal` of each router factory: each factory is modelled by its answer to `needDeal`.
- `autoGeneratePort` is not modelled. It has an empty branch, and it writes the head port into the tail port.
- `moveGraph`, `executeShifter` and `containerLabelPos` depend on shifter and label-position code that is not part of this model.
- Floating-point rounding: all geometry is over reals. `approximate` is an abstract predicate.
- Collections:
  - `groupSelfLine` keeps its groups in a hash map. The model keeps them in first-seen order and claims nothing about the order across groups.
  - `LineDrawProp`s are values in a map keyed by line. Their points are modelled as a sequence, so the in-place clear and append of the source is a replacement.
- `GroupKey` equality uses `FlatPoint` equality as value equality and cell identity as equality of cell numbers. The hash code is modelled through abstract element hashes.
- `copyTempProperties`:
  - Reflection over declared fields is replaced by an explicit list of field names, with the static fields already excluded.
  - The attributes are returned as a merged map rather than updated in place.
- `nodeHandle`'s attribute assembly (cloning attributes and calling the merge and the sizing in turn) is modelled as the separate operations, not wired together. `lineHandle`'s line consumption is modelled as `NewDLine`.
- `NodeContainerSet`: the record label compiled by `CellLabelCompiler` is modelled by its size only, because the compiler is not part of this model.
- The `refreshVolume`/`refreshByLabel` calls of the expanders are not modelled, because they act on code that is not part of this model.
- `DotEngine.DotDigraph.ReverseEdge` and `DotEngine.DotDigraph.RemoveEdge` fix a meaning for the digraph's `reverseEdge` and `removeEdge`, which are not part of this model. Reversal is assumed to turn the edge round in place, keeping its identity and its position among the edges. Removal is assumed to go by identity and keep the other edges in order. The facts proved about legalisation rest on these assumptions. The `reversed` flag of a layout edge is not modelled: `DLine` has no such field.
- `FindFirstHaveTempParent` requires a ranking of the father chain. This states that the container tree has no cycle, which the source assumes.
- The assertions of the `PortNodeSizeExpanderV2` constructor are not modelled: the constructor arguments are given as values.
- Rendering, the SVG editors and the attribute enums are not modelled; they only style output.
