# bevy_debug_grid in Dafny

A model of the core of `bevy_debug_grid`, a Bevy plugin that draws debug
grids as line-list meshes. It covers four parts:

- **Alignment and axis algebra** (`lib.dfy`, module `Lib`).
  - `GridAlignment` picks the plane's normal (X, Y or Z). It gives the
    normal's unit vector and the "inverted" mask, and rotates a floor
    (Y-plane) mesh into the X or Z plane.
  - `GridAxis` splits per-axis colour overrides into used axes (own
    colour) and unused axes (drawn together in the grid colour). Y is never
    defaulted.
- **Mesh builders** (`builder.dfy`, module `Builder`). These are the line
  vertices of one grid line, the main grid, the sub-grid between main
  lines, and the tracked main mesh with its two plane axes. They also
  choose the clip radius of the tracked materials.
- **Tracking** (`tracking.dfy`, module `Tracking`).
  - The snap takes a tracked position, projects it onto the grid plane,
    floors it to the grid spacing and lifts it by the grid's offset.
  - The two transform updaters are loops over the grids in a
    `GridTransforms` class.
  - The generic updater follows the one entity carrying the tracked
    component. The custom updater follows each grid's own override entity.
- **Materials** (`rendering.dfy`, module `Rendering`).
  - The clipped line material resolves each axis colour, falling back to
    the base colour.
  - The material has a shader uniform whose alignment is the inverted axis
    mask.
  - The simple line material has its constructors, `set_color` and the
    alpha-mode getters.
- **Child bookkeeping** (`children.dfy`, module `Children`).
  - The host's entities form a `World` class: a map from entity to record
    (parent, marker, payload) and the next fresh entity.
  - Each mesher despawns a grid's children with its marker, then spawns
    fresh ones. The model covers the untracked, tracked, sub-grid and axis
    meshers.
  - The reaper despawns the marked children of grids whose grid component
    was removed.
  - `Regenerated` and `Reaped` are the functions the methods are proved
    against.

Coordinates are exact `real`s. Colours and alpha modes are opaque values.

## Model

| member | source | states |
|---|---|---|
| Lib.GridAlignment.ToAxisVec3 | src/lib.rs:60-66 | the unit vector of the chosen axis: 1 on that axis, 0 on the other two |
| Lib.GridAlignment.ToInvertedAxisVec3 | src/lib.rs:68-70 | the mask is 0 on the normal and 1 on the other two coordinates |
| Lib.InvertedIsComplement | src/lib.rs:68-70 | the inverted mask equals ONE minus the axis vector, and the two add up to ONE |
| Lib.GridAlignment.ShiftVec3 | src/lib.rs:73-79 | the input's y lands on the normal; Y is the identity; for X and Z the input's z and x land on the next two axes in cyclic order |
| Lib.ShiftUpIsAxis | src/lib.rs:73-79 | shifting the unit Y vector gives the alignment's axis vector |
| Lib.ShiftXZInverse | src/lib.rs:73-79 | the X and Z shifts undo each other |
| Lib.ShiftThreeTimes | src/lib.rs:73-79 | shifting three times by X (or by Z) is the identity, and shifting twice by X is shifting once by Z |
| Lib.ShiftLinear | src/lib.rs:73-79 | shifting is linear: it commutes with addition, scaling and negation |
| Lib.IntoVec3 | src/lib.rs:84-88 | converting an alignment to a vector gives 0 on the normal and 1 elsewhere |
| Lib.Grid.Size | src/systems.rs:56 | the half side length is zero for a grid without lines and never negative for a non-negative spacing |
| Lib.DefaultGrid | src/lib.rs:22-30 | the default grid (8 lines, spacing 0.25, silver) has half size 2 |
| Lib.DefaultTrackedGrid | src/lib.rs:181-187 | the default tracked grid is a floor (Y) with offset 0 and no override |
| Lib.DefaultAxis | src/lib.rs:153-158 | the default axes are X then Z, in that order, and never Y |
| Lib.GridAxis.NewEmpty | src/lib.rs:102-108 | no axis has a colour |
| Lib.GridAxis.NewRgb | src/lib.rs:112-118 | X is red, Y green and Z blue |
| Lib.DefaultGridAxis | src/lib.rs:170-174 | the default GridAxis is the empty one |
| Lib.CreateSingleAxis | src/lib.rs:121-126 | two endpoints, at +size on the given axis and 0 elsewhere, and its negation |
| Lib.GridAxis.CreateAxis | src/lib.rs:130-150 | the pushes build exactly the used list (X, Y, Z order) and the unused list (among X, Z) |
| Lib.SplitUnfolded | src/lib.rs:134-147 | used is the concatenation of the per-axis entries; unused holds X iff x is unset and Z iff z is unset |
| Lib.GridAxis.GetByAlignment | src/lib.rs:161-167 | the colour configured for the given axis: x for X, y for Y, z for Z |
| Lib.UsedAxesMembership | src/lib.rs:130-167 | (a, c) is used exactly when the GridAxis colours a with c |
| Lib.UnusedAxesMembership | src/lib.rs:134-149 | a is unused exactly when a is not Y and has no colour; Y is never unused; no axis is both used and unused |
| Lib.UsedAxesOrdered | src/lib.rs:134-147 | used entries come in strict X, Y, Z order, at most three |
| Lib.EmptyAxisSplit | src/lib.rs:102-158 | the empty (and default) GridAxis uses nothing and leaves exactly the default axes X, Z unused |
| Lib.RgbAxisSplit | src/lib.rs:112-150 | the RGB GridAxis uses all three axes in their colours and leaves none unused |
| Rendering.NewClippedLineMaterial | src/rendering.rs:41-62 | base fields are stored unchanged; each axis colour is the GridAxis colour when set, otherwise the base colour |
| Rendering.NoAxisMeansBaseColour | src/rendering.rs:49-51 | without a GridAxis every axis colour is the base colour, and the empty GridAxis gives the same material |
| Rendering.ClippedLineMaterial.AsBindGroupShaderType | src/rendering.rs:77-91 | the uniform holds the converted colours, the inverted mask of the alignment, and the radius and offset as they are |
| Rendering.ClippedLineMaterial.AlphaModeOf | src/rendering.rs:99-101 | the pipeline gets the alpha mode the material was built with |
| Rendering.FromLinearRgba | src/rendering.rs:129-131 | the material holds the given colour and reports the given alpha mode |
| Rendering.FromColor | src/rendering.rs:134-139 | the material holds the converted colour and reports the given alpha mode |
| Rendering.SimpleLineMaterial.SetColor | src/rendering.rs:142-144 | only the colour changes, to the converted new colour; the alpha mode stays |
| Rendering.SimpleLineMaterial.AlphaModeOf | src/rendering.rs:152-154 | the pipeline gets the alpha mode the material was built with, which SetColor keeps |
| Rendering.SetColorLaws | src/rendering.rs:134-144 | setting a colour gives the material built from it, and the last colour set wins |
| Builder.LineVertices | src/systems.rs:37-52 | 8 vertices at the given height, forming four full-width segments at x = ±h (along z) and z = ±h (along x) |
| Builder.MainGridVerticesAndSize | src/systems.rs:55-63 | size is count times spacing, 8 vertices per line, all in the grid plane |
| Builder.MainGridBlock | src/systems.rs:55-63 | block i is the line at offset (i+1) times spacing, shifted into the plane |
| Builder.LastOffsetIsBorder | src/systems.rs:56-58 | the outermost line sits at the border, offset = size |
| Builder.EmptyMainGrid | src/systems.rs:55-63 | a grid with no lines has no vertices and size 0 |
| Builder.MainGridBounded | src/systems.rs:55-63 | with non-negative spacing every in-plane coordinate lies in [-size, size] |
| Builder.SubOffsetsAt | src/systems.rs:225-229 | sub-line k of cell i sits at position i times count + k of the offset list |
| Builder.SubOffsetStrictlyInside | src/systems.rs:220-228 | each sub-line offset is i spacing + (k+1) sub-spacing, strictly between the main lines of its cell |
| Builder.SubGridVertices | src/systems.rs:219-232 | 8 times count times sub-count vertices, each nudged by the vertical offset along the normal |
| Builder.SubGridBlock | src/systems.rs:225-232 | block (i, k) is the line at that sub-line's offset, shifted into the plane |
| Builder.SubGridTranslation | src/systems.rs:244-246 | the child's translation is +0.001 along the normal and zero in the plane |
| Builder.SubGridOffsetCancels | src/systems.rs:225-246 | vertex nudge plus child translation puts every sub-grid vertex in the grid plane |
| Builder.ClipRadius | src/systems.rs:155 | the radius is one cell inside the border: (count - 1) spacing, so radius + spacing = size |
| Builder.PlaneAxes | src/systems.rs:131-136 | the X then Z segments through the origin, each a point and its negation, in the grid plane |
| Builder.TrackedMainVertices | src/systems.rs:130-136 | the loop appends exactly the two shifted plane axes to the main grid: length 8 count + 4 |
| Builder.DefaultGridMesh | src/lib.rs:22-30 | the default grid's mesh has 64 vertices, half size 2 and clip radius 1.75 |
| Tracking.SnapToSpacing | src/systems.rs:370 | the floor to the spacing lies at or below x and less than one spacing below |
| Tracking.SnapIsMultiple | src/systems.rs:370 | a snapped coordinate is an integer multiple of the spacing |
| Tracking.SnapOfMultiple | src/systems.rs:370 | a multiple of the spacing snaps to itself |
| Tracking.SnapTwice | src/systems.rs:370 | snapping twice is snapping once |
| Tracking.SnapCoordinate | src/systems.rs:370 | a coordinate in cell n snaps to n times spacing |
| Tracking.ProjectOntoPlane | src/systems.rs:367-368 | multiplying by the inverted mask zeroes the normal coordinate and keeps the others |
| Tracking.ScaledAxis | src/systems.rs:369 | the axis vector times the offset is the offset on the normal and zero elsewhere |
| Tracking.Snap | src/systems.rs:367-370 | the new translation is the offset on the normal and the snapped tracked coordinate in the plane |
| Tracking.SnapWithinCell | src/systems.rs:387-390 | in the plane the translation is the corner of the cell holding the tracked position |
| Tracking.SnapIdempotent | src/systems.rs:367-370 | snapping the snapped translation changes nothing |
| Tracking.SnapExample | src/systems.rs:367-370 | a floor grid of spacing 2 tracking (7.3, h, -4.9) moves to (6, 0, -6) |
| Tracking.FollowTrackedSkips | src/systems.rs:360-366 | without exactly one match nothing moves; a grid with an override, or an entity that is not a grid, keeps its translation |
| Tracking.FollowTrackedMoves | src/systems.rs:356-372 | with one match every grid without an override moves to the snap of that match |
| Tracking.OverrideIsolation | src/systems.rs:376-392 | an overridden grid ends at the snap of its override entity whichever updater runs first |
| Tracking.UpdatersCommute | src/systems.rs:356-392 | the two updaters touch disjoint grids, so running them in either order gives the same transforms |
| Tracking.GridTransforms.TrackedGridUpdater | src/systems.rs:356-372 | the loop leaves exactly the generic-follow transforms |
| Tracking.GridTransforms.CustomTrackedGridUpdater | src/systems.rs:376-392 | the loop leaves exactly the override-follow transforms: grids without an override, or whose target has no transform, are skipped |
| Children.FreshChildrenMembers | src/systems.rs:87-102 | spawned children are the entities n .. n + k - 1, each holding its own payload |
| Children.RegeneratedKeepsOthers | src/systems.rs:20-34 | only the parent's children with the marker go; every other record stays as it was |
| Children.RegeneratedMarked | src/systems.rs:84-102 | afterwards the marked children of the parent are exactly the fresh entities, each with its payload |
| Children.RegenerateTwice | src/systems.rs:79-102 | meshing twice is meshing once, up to the choice of fresh entities |
| Children.UnparentedSurviveRegeneration | src/systems.rs:20-34 | a record with no parent is never removed by regeneration |
| Children.ReapedLaws | src/systems.rs:395-417 | nothing removed takes nothing; unparented records are never taken; every marked child of a removed grid is taken and none is left |
| Children.AxisLines | src/systems.rs:329-332 | two vertices per merged axis |
| Children.AxisLinesAvoid | src/systems.rs:328-332 | the merged mesh has nothing along an axis it does not list |
| Children.TrackedAxisColor | src/systems.rs:166 | the normal axis line exists exactly when a GridAxis colours the normal |
| Children.TrackedAxisLineLeaks | src/systems.rs:165-191 | the tracked axis line has no parent, so meshing again keeps the old one beside the new one |
| Children.SubGridPayload | src/systems.rs:249-264 | the material is clipped exactly when tracked, with radius one cell inside the border and the sub-grid colour; otherwise it is simple, in the sub-grid colour |
| Children.AxisPayloadsShape | src/systems.rs:299-349 | one child per used axis, in that axis's own colour with that axis's single segment, then one child exactly when some axis is unused, in the grid colour with the merged segments of the unused axes |
| Children.NoAxisMeansMergedXZ | src/systems.rs:324-332 | without a GridAxis there is one child in the grid colour whose mesh is the X then Z segments, flat in y |
| Children.World.Spawn | src/systems.rs:171 | the record gets the next fresh entity |
| Children.World.SpawnChildren | src/systems.rs:87-102 | the store gains one fresh child of the parent per payload, numbered from the next fresh entity, and nothing else changes |
| Children.World.DespawnChildrenOfType | src/systems.rs:20-34 | the store loses exactly the parent's children with the marker |
| Children.World.MainGridMesherUntracked | src/systems.rs:79-102 | the grid child is regenerated with the floor mesh in a simple material of the grid colour |
| Children.World.MainGridMesherTracked | src/systems.rs:129-191 | the grid child is regenerated with the tracked mesh and clipped material; a coloured normal axis is spawned with no parent |
| Children.World.SubGridMesher | src/systems.rs:218-269 | the sub-grid child is regenerated with the sub-grid payload |
| Children.World.GridAxisMesher | src/systems.rs:292-349 | the axis children are regenerated with the used-axis payloads followed by the merged payload |
| Children.World.SpawnUsedAxes | src/systems.rs:299-326 | one child per used axis; the common axes are the unused axes, or the default axes without a GridAxis |
| Children.World.SpawnCommonAxes | src/systems.rs:328-349 | one merged child when there are common axes, none otherwise |
| Children.World.ChildrenByParent | src/systems.rs:403-409 | each marked, parented child is listed under its parent, and only there |
| Children.World.DespawnAll | src/systems.rs:410-416 | the store loses exactly the listed entities; the fresh-entity counter is kept |
| Children.World.DespawnChildrenUponRemoval | src/systems.rs:395-417 | the store loses exactly the marked children whose parent was removed, and nothing when nothing was removed |

## Left out

- Bevy ECS plumbing is not modelled: Commands and their deferral, queries, `Changed<>` filters, and iteration over the matched entities. Each mesher is modelled for one grid entity, with the components it reads as parameters.
- Asset pools and handles are not modelled. A child's record holds its mesh and material by value.
- `RenderLayers` is an opaque value that is copied to the children.
- f32 behaviour is not modelled: rounding, the fused multiply-add in the sub-grid offsets, `floor` on f32, and NaN or infinite spacing. Coordinates are exact reals.
- Tracking.Snap: requires a positive spacing, because the source's division by a zero or negative spacing gives f32 infinities or mirrored cells that the real-number model leaves out.
- Colour conversion to linear space is an engine call and is not modelled. `ToLinear` only records which colour was converted. The tag tells colours apart, but that comes from the encoding and not from the engine, so no property of the plugin is stated or proved from it.
- Rendering.SimpleLineMaterial.SetColor: returns the updated material instead of changing it in place, because materials are stored by value in the modelled records.
- Children.World.DespawnChildrenUponRemoval: the reaper's despawns are not recursive, as in the source. The children of a despawned child are not followed.
- The order of the despawns and of the parent-to-children lists is not modelled. The reaper's contract is stated on sets.
- The system scheduling in `src/plugin.rs` is not modelled, and nothing is claimed about the order in which systems run. Shaders, pipeline specialisation, plugin registration and the floor-grid spawner are not modelled either.
- The example programs are not part of this model.
- The versions of `TrackedGrid` and `Grid` in `src/lib.rs` lack `tracking_override` and `alpha_mode`. The systems and materials use both, so the model includes both fields. `Lib.DefaultGrid` takes the alpha mode as a parameter.
