# Cube editor vertex-sequence model

A Dafny model of the editing core of the 3D rectangle editor. The editor keeps a
cyclic array of boundary vertices. A *main* vertex is a corner the user places.
A *virtual* vertex is a handle that sits halfway between a main vertex and the
next main vertex. A main vertex may be *curved*: it then carries two Bézier
handles and is not followed by a virtual vertex. Dragging a virtual vertex
promotes it to a main vertex. Double-clicking an edge makes its owner curved or
straight again.

The model has two layers.

- **Values** (`Layout`, `Derivation`). An array is a `seq<VState>`, one
  entry per vertex holding its type, its position and its optional handles.
  Two laws hold between events:
  - `Settled` is alternation: every virtual is preceded by a main and followed
    by a main, and a curved vertex is a main.
  - The midpoint law: every virtual sits at the centre of its neighbours.

  The rebuild (`Rebuild`), the one-pass re-centring (`RefreshAll`), the
  initial layout (`InitLayout`), and the extrusion outline and edge paths
  derived from the array are functions on these values. Their properties are
  lemmas.
- **Objects** (`Geometry`, `VertexModel`, `Editor`). `Vec3` is a mutable
  three.js vector. `Vertex` is a class whose position vector is shared, not
  copied. `Mesh` is the marker sphere; its object identity stands for its
  uuid. `CubeEditor` is a class with the vertex array, the depth, the
  selection, the hover and the orbit flag as fields.
  - Every method of the editor is proved against the value layer: it states
    the new `Values(vertexArray)` as a function of the old one.
  - Its invariant `Valid()` contains `Sound()`: no vertex twice, no two
    vertices sharing a vector, every marker at its vertex, and the defaults
    never aliased.
  - `Valid()` also requires the values to be `Settled`, and the defaults
    and the array to be non-empty.
  - `Live()` says that the selection and the hovered edge belong to main
    vertices of the array, and that the selection is never an edge tube.
    This is what makes the handlers' uuid lookups succeed.

Coordinates are reals, so the arithmetic is exact.

## Model

| member | source | states |
|---|---|---|
| Geometry.GetCenterVector | src/utils/three.ts:67-74 | returns a freshly allocated vector at the componentwise midpoint `(a + b) / 2`; neither argument is modified |
| Geometry.Center | src/utils/three.ts:72 | the midpoint is equidistant from both ends along each axis |
| Geometry.CenterUnique | src/utils/three.ts:72 | the midpoint is the only point equidistant from both ends along every axis |
| Geometry.CenterSymmetric | src/utils/three.ts:72 | `getCenterVector` is symmetric in its arguments |
| Geometry.CenterSame | src/utils/three.ts:72 | the centre of a point with itself is that point |
| Geometry.Vec3.Copy | src/component/Vertex.ts:28-29 | `copy` overwrites the components in place with the argument's values |
| VertexModel.Vertex.constructor | src/component/Vertex.ts:14-19 | stores the given type and the given position object itself, without copying; a fresh marker is placed at the position's value (line 41); the vertex is not curved |
| VertexModel.Vertex.ChangeToMain | src/component/Vertex.ts:21-25 | the type becomes main; position and handles are unchanged; a main stays exactly as it was (idempotent) |
| VertexModel.Vertex.SetPosition | src/component/Vertex.ts:27-30 | copies the value of p into the vertex's own vector and into the marker's vector, so the marker stays at the vertex and p is not aliased |
| VertexModel.Vertex.ChangeToCurve | src/component/CubeEditor.ts:443-446 | the vertex becomes curved with the given handles |
| VertexModel.Vertex.ChangeFromCurve | src/component/CubeEditor.ts:440-441 | the vertex becomes straight and loses its handles |
| VertexModel.Vertex.ChangeCurvePos | src/component/CubeEditor.ts:387-389 | moves the chosen handle to the point and keeps the other one |
| VertexModel.MovedHandle | src/component/CubeEditor.ts:387-389 | moving a handle keeps curvedness, sets exactly the chosen handle and keeps the other |
| Editor.GetInitVertexArray | src/component/CubeEditor.ts:49-77 | fresh vertices, none aliasing a default; their values are `InitLayout` of the defaults |
| Layout.InitLayoutAt | src/component/CubeEditor.ts:49-77 | 2n entries; entry 2k is main at default k; entry 2k+1 is virtual at the midpoint of defaults k and (k+1) mod n; nothing is curved |
| Layout.InitLayoutRebuilt | src/component/CubeEditor.ts:49-77 | two entries per default, none curved; the initial layout's mains are the defaults; it is settled; rebuilding it leaves it unchanged |
| Editor.CubeEditor.constructor | src/component/CubeEditor.ts:35-47 | depth and the virtual-vertex switch as given; array is the initial layout; nothing hovered or selected; the invariant holds |
| Editor.CubeEditor.SetVirtualVertexPos | src/component/CubeEditor.ts:81-92 | the in-place loop leaves exactly `RefreshAll` of the old values: each virtual in index order moves to the midpoint of its predecessor and cyclic successor |
| Editor.CubeEditor.CentreVirtualAt | src/component/CubeEditor.ts:83-89 | one loop step: only the virtual at `index` changes, to the midpoint of its current neighbours |
| Layout.RefreshStep | src/component/CubeEditor.ts:83-89 | a step keeps every type and every handle, and changes no other entry |
| Layout.RefreshUpTo | src/component/CubeEditor.ts:81-92 | after any prefix of the loop: types and handles unchanged, mains and unvisited entries unchanged |
| Layout.RefreshSettles | src/component/CubeEditor.ts:81-92 | on an alternating array, the pass re-centres every virtual between its neighbours, and the result is settled |
| Layout.RefreshSettledIsIdentity | src/component/CubeEditor.ts:81-92 | on a settled array the pass changes nothing |
| Layout.DragSettles | src/component/CubeEditor.ts:384-392 | moving a main to p keeps the alternation; the refreshed array is settled, main i is at p, and every other main is unchanged |
| Layout.RehandleSettled | src/component/CubeEditor.ts:387-392 | moving a handle of a curved vertex keeps the array settled |
| Editor.RebuildArray | src/component/CubeEditor.ts:94-114 | the new array's values are `Rebuild` of the old; its main vertices are the old main objects in their old order; everything else in it is a fresh virtual; every old main is kept |
| Editor.CubeEditor.ResetVirtualVertexPos | src/component/CubeEditor.ts:94-114 | the same, for the editor's array: the main vertex objects keep their order, the other entries are fresh virtuals, `Sound` is kept |
| Layout.RebuildMains | src/component/CubeEditor.ts:94-114 | the rebuilt array has the same main subsequence, in the same order |
| Layout.RebuildLength | src/component/CubeEditor.ts:94-114 | the rebuilt array has length \|main\| + \|non-curved main\| |
| Layout.RebuildSettled | src/component/CubeEditor.ts:94-114 | the rebuilt array is settled: it starts with a main, every virtual is between mains at their midpoint, and curved vertices are not followed by a virtual |
| Layout.RebuildIdempotent | src/component/CubeEditor.ts:94-114 | rebuilding twice is rebuilding once |
| Layout.SettledRebuilt | src/component/CubeEditor.ts:94-114 | conversely, rebuilding a settled array gives it back unchanged, so the settled arrays are exactly the fixed points of the rebuild |
| Layout.SettledVirtual | src/component/CubeEditor.ts:84-87 | in a settled array a virtual is never at index 0, both neighbours are mains, and it sits at their midpoint |
| Layout.SettledCurvedIsMain | src/component/CubeEditor.ts:103 | in a settled array a curved vertex is a main |
| Layout.NextIndex | src/component/CubeEditor.ts:85-86 | `index === length - 1 ? 0 : index + 1` is the cyclic successor `(i + 1) mod n` |
| Layout.Mains | src/component/CubeEditor.ts:96-98 | the filter keeps only mains and never lengthens |
| Layout.MainsAppend | src/component/CubeEditor.ts:96-98 | the filter distributes over concatenation |
| Editor.MainVerticesIn | src/component/CubeEditor.ts:96-98 | an object is in the filtered array exactly when it is in the array and is a main |
| Editor.FindIndex | src/component/CubeEditor.ts:310-312 | `findIndex`: -1 exactly when absent, otherwise the first index holding the element |
| Editor.NextMain | src/component/CubeEditor.ts:306-314 | no result exactly when there is no main; a non-member (index -1) yields the first main |
| Editor.NextMainOf | src/component/CubeEditor.ts:306-314 | without repeats, main k maps to main (k + 1) mod \|main\|, so the last main maps to the first |
| Editor.CubeEditor.GetNextMainVertex | src/component/CubeEditor.ts:306-314 | the result is a main vertex of the array, none exactly when there is no main, the first main for a non-main argument |
| Editor.CubeEditor.NextMainAt | src/component/CubeEditor.ts:306-314 | on the editor's array, `getNextMainVertex` of main k is main (k + 1) mod \|main\| |
| Editor.CubeEditor.GetVertexByUuid | src/component/CubeEditor.ts:316-318 | a found vertex is in the array and owns the marker; nothing is found exactly when no vertex owns it |
| Editor.CubeEditor.LookupFinds | src/component/CubeEditor.ts:316-318 | on a sound array the lookup by a vertex's marker finds exactly that vertex |
| Editor.CubeEditor.MarkersDistinct | src/component/CubeEditor.ts:316-318 | distinct vertices have distinct markers |
| Editor.CubeEditor.EdgeGroup | src/component/CubeEditor.ts:140-171 | one tube per main vertex |
| Editor.CubeEditor.EdgeGroupSpec | src/component/CubeEditor.ts:140-171 | tube k is named after main k, is red (curved) exactly when main k is curved, and follows edge path k |
| Editor.CubeEditor.EdgeGroupLinks | src/component/CubeEditor.ts:140-171 | the lookup by tube k's name finds main k, and the tube ends at the position of `getNextMainVertex` of main k |
| Derivation.EdgePaths | src/component/CubeEditor.ts:140-171 | one edge path per main vertex |
| Derivation.EdgesChain | src/component/CubeEditor.ts:145-158 | edge k starts at main k and ends where edge k+1 starts, cyclically; it is a Bézier exactly when main k is curved |
| Derivation.EdgesIgnoreVirtuals | src/component/CubeEditor.ts:142-144 | rebuilding the virtuals does not change the edges |
| Editor.CubeEditor.ExtrudeMesh | src/component/CubeEditor.ts:239-274 | under the invariant there is a main vertex; the extrusion uses the editor's depth `_deepth` and no bevel; its shape opens with `moveTo` the last main and has 1 + \|main\| + \|curved main\| commands |
| Derivation.OutlineLength | src/component/CubeEditor.ts:245-265 | the outline has 1 + \|main\| + \|curved main\| commands |
| Derivation.OutlineStep | src/component/CubeEditor.ts:248-265 | after the opening `moveTo`, the commands of main k follow those of mains 0..k-1, in main order |
| Derivation.OutlinePolygon | src/component/CubeEditor.ts:245-265 | with no curved main, the outline is `moveTo` the last main then `lineTo` each main in order, over (x, z) |
| Derivation.StepsPrefixLength | src/component/CubeEditor.ts:248-265 | mains 0..k-1 issue k commands plus one more per curved main |
| Derivation.OutlineIgnoresVirtuals | src/component/CubeEditor.ts:242-244 | rebuilding the virtuals does not change the outline |
| Editor.CubeEditor.SetDeepth | src/component/CubeEditor.ts:301-304 | the depth is stored as given; the rebuilt extrusion has that depth and the same shape as before; the invariant is kept |
| Editor.ResetLayout | src/component/CubeEditor.ts:319-321 | `getInitVertexArray` then `resetVirtualVertexPos` gives the initial layout on fresh vertices, settled, with nothing curved |
| Editor.CubeEditor.ResetAll | src/component/CubeEditor.ts:319-327 | the array becomes the initial layout on fresh, uncurved vertices; the invariant holds; selection stays meaningful when there was none |
| Editor.CubeEditor.MoveUpEventHandler | src/component/CubeEditor.ts:331-336 | the selection is cleared; orbiting is re-enabled exactly when something was selected, otherwise unchanged |
| Editor.CubeEditor.MouseMoveEventListener | src/component/CubeEditor.ts:338-399 | hover priority vertex, handle, edge, else none; with a selected vertex marker, that vertex moves to the plane point and the virtuals are refreshed; a selected handle moves; array and selection unchanged; invariant kept |
| Editor.CubeEditor.Hover | src/component/CubeEditor.ts:366-374 | the hover becomes the hit, or none; the vertex values are unchanged |
| Editor.CubeEditor.DragSelection | src/component/CubeEditor.ts:376-398 | under a selection, the update the selected object calls for: a selected vertex marker moves its vertex and the virtuals are refreshed, a selected handle moves only that handle; an edge tube is never selected (`mouseDownEventListner` selects only from the vertex and handle groups, lines 402-431), so there is no third case |
| Editor.CubeEditor.DragVertex | src/component/CubeEditor.ts:384-386 | exactly the owner of the selected marker moves to the plane point, then the virtuals are refreshed; invariant and selection kept |
| Editor.CubeEditor.DragHandle | src/component/CubeEditor.ts:387-392 | exactly the chosen handle of the selected handle's owner moves to the plane point; invariant kept |
| Editor.CubeEditor.SetVertexPosition | src/component/CubeEditor.ts:386 | `setPosition` on vertex i changes only entry i's position |
| Editor.CubeEditor.MouseDownEventListener | src/component/CubeEditor.ts:401-431 | a vertex hit beats a handle hit; the hit vertex is the one `getVertexByUuid` finds for the marker; a hit virtual is promoted and the array rebuilt, so the main count rises by one and the hit vertex is a main placed between the main objects before it and those after it; any selection disables orbit; no hit changes nothing |
| Editor.CubeEditor.GrabVertex | src/component/CubeEditor.ts:415-424 | selects the hit marker and disables orbit; a hit virtual becomes a main between the main objects before it and those after it, with values `Rebuild(Promoted(..))`; a hit main leaves the array as it was |
| Editor.CubeEditor.MakeMain | src/component/CubeEditor.ts:418-422 | afterwards the hit vertex is a main in the array: a virtual is promoted and the array rebuilt, the main vertex objects being the old mains before it, then it, then the old mains after it; a main leaves the array and its values as they were; the selection is untouched |
| Editor.CubeEditor.PromoteAndRebuild | src/component/CubeEditor.ts:418-422 | `changeToMain` then `resetVirtualVertexPos`: values are `Rebuild(Promoted(..))`, one main more; the main vertex objects are the old mains before position i, then the vertex, then the old mains after i |
| Layout.PromotedMains | src/component/CubeEditor.ts:418-420 | promoting virtual i inserts it into the main subsequence in place and adds one main |
| Layout.PromoteRebuilt | src/component/CubeEditor.ts:418-420 | after promotion and rebuild the array is settled and has one main more |
| Editor.CubeEditor.Grab | src/component/CubeEditor.ts:423-429 | the pick becomes the selection and orbit is disabled; the values and the main vertex objects are unchanged |
| Editor.CubeEditor.DblClickEventHandler | src/component/CubeEditor.ts:434-457 | acts only on a hovered edge tube: flips the owner's curvedness and rebuilds the virtuals, the main vertex objects keeping their order; otherwise nothing changes |
| Editor.CubeEditor.ToggleAndRebuild | src/component/CubeEditor.ts:440-449 | values are `Rebuild(Toggled(..))`, the owner is kept and its curvedness flipped, the main vertex objects keep their order; the invariant holds |
| Layout.MainsToggled | src/component/CubeEditor.ts:440-447 | toggling main i changes only that main in the main subsequence, at its rank among the mains |
| Layout.ToggleRebuilt | src/component/CubeEditor.ts:440-449 | after a toggle and rebuild the array is settled, non-empty, and has as many mains as before |
| Layout.ToggleRoundTrip | src/component/CubeEditor.ts:434-457 | double-clicking the same edge twice (the second time handing back the handles a curved vertex had) restores the settled array exactly |
| Layout.Toggled | src/component/CubeEditor.ts:440-447 | toggling flips whether the vertex has handles, gives a straight vertex the handles h, keeps its kind and position and leaves every other entry as it was |
| Editor.CubeEditor.ToggleAt | src/component/CubeEditor.ts:440-447 | `changeFromCurve` on a curved owner, `changeToCurve` on a straight one: only that entry's handles change |
| Editor.CubeEditor.PromoteAt | src/component/CubeEditor.ts:419 | `changeToMain` on vertex i changes only entry i's type; the main vertex objects become the old mains before i, then the vertex, then the old mains after i |

## Left out

- Rendering: three.js meshes, groups, materials, opacity, colour, scale,
  cursor style, the tube and extrusion geometry, the sampling by
  `getPoints(5)`, and the 90° rotation. The model stops at the data those
  are built from: the outline commands and the edge paths.
- `setVertexGroup`, `setCurveLineGroup`, `setCurveVertexGroup` and the
  `reset*Group` methods rebuild scene graphs. Only the membership rule of the
  vertex group is kept: a hit is a main's marker, or a virtual's when
  virtual vertices are enabled (`InVertexGroup`).
- Raycasting (`getHoverMesh`, `getPlaneIntersectPos`) is not modelled. Its
  results are parameters of the handlers. The handlers require that hits come
  from the current groups.
- `getInsidePos` is not part of this model. The handles given to a newly
  curved vertex are a parameter (`seeds`). The `getNextMainVertex` call in
  `dblClickEventHandler` only feeds `getInsidePos`, so it is dropped there.
- `defaultVertextPositions` is not part of this model. The defaults are a
  constructor parameter.
- Event-listener registration and `dispose` are DOM wiring and are not
  modelled.
- The curve members of `Vertex` (`_isCurve`, `_curvePoints`, `changeToCurve`,
  `changeFromCurve`, `changeCurvePos`) are not in the vertex file. They are
  modelled from how the editor uses them, as follows:
  - `changeCurvePos` moves the chosen handle of a curved vertex;
  - on a straight vertex it does nothing;
  - the handle marker objects are reduced to which of the two handles they
    stand for.
- Editor.CubeEditor.SetDeepth: stores the depth without any clamping, as the
  code does, even though a bounded depth is described for the editor.
  Rebuilding the extrusion is `Editor.CubeEditor.ExtrudeMesh` over the new
  depth. It requires the invariant, which supplies the main vertex the
  outline needs.
- Editor.CubeEditor.constructor: requires at least one default position.
  With none, `initScene` calls `setExtrudeMesh` on an array without a main
  vertex and the source throws (src/component/CubeEditor.ts:45, 287 and 245-246).
- Editor.CubeEditor.ResetAll: requires the invariant `Valid()` that every
  event handler keeps, in particular a non-empty list of defaults.
- Derivation.Outline: requires at least one main vertex. With none,
  `mainArray[mainArray.length - 1]` is undefined and the source throws.
- Editor.CubeEditor.SetVirtualVertexPos: requires index 0 not to be virtual.
  Otherwise `this._vertexArray[index - 1]` is out of range. The editor's
  invariant guarantees this between events.
- Editor.CubeEditor.ResetAll: re-establishes `Live` only when nothing was
  selected or an edge hovered. `resetAll` does not clear the selection or the
  hover, and after it they may name markers that are gone.
- Editor.CubeEditor.MouseMoveEventListener: the `setVirtualVertexPos` after the
  branch on the selection is written at the end of each branch.
- Floating-point rounding of three.js vector arithmetic is not modelled.
  Coordinates are exact reals.
