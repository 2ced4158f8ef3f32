# MakeTile geometry and state logic in Dafny

MakeTile is a Blender add-on that builds printable dungeon tiles. A tile has
a base, a core, and the cutters, clips and trimmers applied to them with
boolean modifiers. This project models the logic the add-on runs between
its calls into Blender:

- the placement and dimension arithmetic for bases, cores and cutters of
  straight, curved and L-shaped tiles, and of the stand-alone straight wall
  builder;
- the vertex-zone classifiers that tag a core's vertices into side groups
  (the axis-aligned box classifier and the layer-walking classifier for
  angled walls and floors);
- the bookkeeping of cutters and trimmers: their DIFFERENCE booleans named
  `name + '.bool'`, their collection entries, and the trimmer toggle;
- the scene property callbacks: proportional base sizes, the sorted enum
  lists and the blueprint defaults;
- the displacement and preview material states: material registration, the
  textured vertex set, the bake with its saved and restored render settings,
  and the return to the preview state.

Coordinates are exact `real`s and π is a parameter. Blender operators and
helpers from files that are not part of this model become parameters or
methods with a stated, assumed contract. Scene objects are a class `Obj`
(module `Objects`) whose geometry is a box: the geometry spans
`location + offset` to `location + offset + size`. Setting the origin to
the cursor keeps the geometry and moves `location`.

Modules, one per source file plus shared ones:

| module | file | models |
|---|---|---|
| `Common` | common.dfy | vectors, `Option`, lifting and reversing coordinate lists |
| `Objects` | objects.dfy | scene objects, modifiers, cutter entries, the cutter registration loop |
| `StraightTiles` | straight_tiles.dfy | tile_creation/Straight_Tiles.py |
| `CurvedTiles` | curved_tiles.dfy | tile_creation/Curved_Tiles.py |
| `LTiles` | l_tiles.dfy | the builders of tile_creation/L_Tiles.py |
| `CornerZones` | corner_zones.dfy | the classifiers of tile_creation/L_Tiles.py |
| `StraightWallTile` | straight_wall_tile.dfy | tile_creation/create_straight_wall_tile.py |
| `TrimTile` | trim_tile.dfy | operators/trim_tile.py |
| `Properties` | properties.dfy | properties.py |
| `MeshObjects` | mesh_objects.dfy | mesh objects with materials and vertex groups |
| `BakeDisplacement` | bake_displacement.dfy | operators/bakedisplacement.py |
| `ReturnToPreview` | return_to_preview.dfy | operators/return_to_preview.py |

## Model

| member | source | states |
|---|---|---|
| Objects.FindModifier | tile_creation/Straight_Tiles.py:829 | `modifiers[name]` finds the first modifier with that name; the result is None (KeyError) exactly when no modifier has the name |
| Objects.BoolNameInjective | tile_creation/Straight_Tiles.py:713 | different cutters get different `name + '.bool'` boolean names |
| Objects.FindCutterBool | tile_creation/Straight_Tiles.py:712-716 | among the booleans added for distinct cutters, looking up `name + '.bool'` finds that cutter's own boolean |
| Objects.CutterBoolFound | tile_creation/Straight_Tiles.py:712-716 | on a core with no such boolean before, the lookup finds exactly the cutter's boolean after the earlier modifiers |
| Objects.CutterListsAt | tile_creation/Straight_Tiles.py:712-723 | entry i of the booleans and of the collection entries belongs to cutter i: a DIFFERENCE boolean, and an entry in use parented to the core |
| Objects.Obj.Copy | tile_creation/Straight_Tiles.py:821 | `copy()` makes a new object with the same fields |
| Objects.Obj.OriginToCursor | tile_creation/Straight_Tiles.py:392 | setting the origin to the cursor moves `location` to the cursor and leaves the geometry where it was |
| Objects.Obj.AddModifier | tile_creation/Straight_Tiles.py:474-476 | the new modifier is appended to the stack |
| Objects.Obj.MarkCutter | tile_creation/Straight_Tiles.py:704-710 | the cutter is parented to the base, shown as given, hidden and, where marked, typed CUTTER |
| Objects.Obj.AddCutterItem | tile_creation/Straight_Tiles.py:720-723 | the new entry is appended to the cutters collection |
| Objects.Obj.AddTrimmerItem | operators/trim_tile.py:504-507 | the new entry is appended to the trimmers collection |
| Objects.Obj.SetFitLength | tile_creation/Straight_Tiles.py:829-830 | the named array modifier gets the fit length; a missing name raises KeyError and changes nothing |
| Objects.Obj.SetShowViewport | operators/trim_tile.py:527-528 | the named modifier's viewport flag is set; a missing name raises KeyError and changes nothing |
| Objects.SpawnSideCutters | tile_creation/Straight_Tiles.py:800-830 | a bottom side cutter at the location with an array fitted to tile_z − 1, and a top copy raised 0.75 fitted to tile_z − 1.8 |
| Objects.AddCutterToCores | tile_creation/Straight_Tiles.py:712-723 | every core gets one DIFFERENCE boolean named cutter + '.bool' and one entry in use parented to that core |
| Objects.MarkCutters | tile_creation/Straight_Tiles.py:703-710 | every cutter is parented to the base, shown as bounds, hidden and typed CUTTER |
| Objects.AddCuttersToCores | tile_creation/Straight_Tiles.py:703-723 | each core's stack and collection grow by the cutters' booleans and entries, in cutter order |
| Objects.RegisterWallCutters | tile_creation/Straight_Tiles.py:703-723 | the whole registration loop over cutters and cores |
| Objects.RegisterOnCores | tile_creation/Straight_Tiles.py:700-723 | the registration loop on the preview core and its displacement copy |
| Objects.RegisterOnCoresAndHide | tile_creation/Straight_Tiles.py:700-725 | the registration loop, then the displacement core is hidden |
| StraightTiles.SlotCutterSize | tile_creation/Straight_Tiles.py:444-453 | y 0.197 and z 0.25; x is the base length shortened by 0.236 at both ends, with the base's sign, for bases drawn either way |
| StraightTiles.SlotCutterLo | tile_creation/Straight_Tiles.py:458-463 | the slot cutter is centred on the base in x, `offset` in along y, and starts 0.001 below the base bottom while reaching into it |
| StraightTiles.ClipInsideBase | tile_creation/Straight_Tiles.py:523-534 | the clip array starts 0.5 in from the base start and its fitted length ends 0.5 short of the base end, never negative |
| StraightTiles.SpawnPlainBase | tile_creation/Straight_Tiles.py:369-400 | a base named tile + '.base' of the base size at the cursor, typed BASE |
| StraightTiles.CreateSlotCutter | tile_creation/Straight_Tiles.py:434-485 | the slot cutter's name, size and place; the base gets a DIFFERENCE boolean named after it; the cutter is parented, bounds, hidden, typed CUTTER |
| StraightTiles.CreateClipCutter | tile_creation/Straight_Tiles.py:488-541 | the clip at base + (0.5, 0.25, 0) with an array fitted to base_x − 1, typed CUTTER |
| StraightTiles.SpawnOpenlockBase | tile_creation/Straight_Tiles.py:403-431 | the plain base with the slot cutter at offset 0.236 and a clip cutter exactly when base_x ≥ 1, with the base's modifiers stated for both cases |
| StraightTiles.WallCoreOnBase | tile_creation/Straight_Tiles.py:745-758 | the core shares the base's y mid-plane, its bottom is the base top and its top is tile_z above the cursor |
| StraightTiles.SpawnWallCore | tile_creation/Straight_Tiles.py:730-775 | the core's name, size (tile_x, tile_y, tile_z − base_z) and place, origin at the cursor, cursor unchanged, and its vertices sorted into the six side groups |
| StraightTiles.SideCuttersAtCoreEnds | tile_creation/Straight_Tiles.py:805-849 | the two bottom side cutters sit at the core's two x ends, on its y mid-plane, 0.63 above the cursor, symmetric about the core's middle |
| StraightTiles.CreateWallCutters | tile_creation/Straight_Tiles.py:777-871 | four distinct cutters, their names, locations, 0/180 degree rotations and fitted arrays (tile_z − 1 bottom, tile_z − 1.8 top) |
| StraightTiles.CreateOpenlockWallCores | tile_creation/Straight_Tiles.py:678-727 | each of the four cutters is registered on both cores with a render-off DIFFERENCE boolean and an entry in use, and the displacement core ends hidden |
| StraightTiles.BoxSideNameInjective | tile_creation/Straight_Tiles.py:561-566 | the six side groups have six different names |
| StraightTiles.BoxGroupsSpec | tile_creation/Straight_Tiles.py:570-647 | with nothing selected on entry, every side's group holds exactly that side's zone and other groups are untouched |
| StraightTiles.OppositeSidesDisjoint | tile_creation/Straight_Tiles.py:571-643 | opposite sides share no vertex once the core is thicker than the slabs |
| StraightTiles.EndTopEdgeUnassigned | tile_creation/Straight_Tiles.py:571-643 | a vertex on an edge where an end meets the top, on the mid-plane, is in no group |
| StraightTiles.FaceVertexClassified | tile_creation/Straight_Tiles.py:571-643 | a vertex on any of the six faces (Left, Right, Front, Back, Bottom, Top), away from that face's rims, is in that face's zone |
| StraightTiles.VertexData.SelectSide | tile_creation/Straight_Tiles.py:571-577 | an additive selection adds the side's zone to the selection |
| StraightTiles.VertexData.AssignTo | tile_creation/Straight_Tiles.py:579-580 | the active group gains the selection |
| StraightTiles.VertexData.TagSide | tile_creation/Straight_Tiles.py:571-582 | select, assign, deselect: the group gains the old selection and the zone, nothing stays selected |
| StraightTiles.VertexData.TagAllSides | tile_creation/Straight_Tiles.py:570-647 | the six sides in order give the groups `BoxGroups` describes |
| StraightTiles.StraightWallToVertGroups | tile_creation/Straight_Tiles.py:544-654 | the groups are as `BoxGroups` describes, and the cursor, the origin and the geometry end where they started |
| CurvedTiles.WallCoreRadius | tile_creation/Curved_Tiles.py:395-396 | a wall core's radius centres the wall thickness on the base width: radius + tile_y/2 = base_radius + base_y/2 |
| CurvedTiles.WallLength | tile_creation/Curved_Tiles.py:765-766 | the straight core's length 2πr/(360/arc) is the arc length πr·arc/180 |
| CurvedTiles.FullTurnLength | tile_creation/Curved_Tiles.py:765-766 | a 360 degree arc gives the whole circumference 2πr |
| CurvedTiles.SpawnCore | tile_creation/Curved_Tiles.py:752-815 | the core's name, size (arc length, tile_y, tile_z − base_z) and place (out by the radius, up by base_z), its render-off bend of −arc, and tile_x overwritten with the arc length |
| CurvedTiles.SpawnPlainWallCores | tile_creation/Curved_Tiles.py:385-406 | the wall radius rule, the core at that radius, its side groups, the displacement copy hidden |
| CurvedTiles.SpawnWallCore | tile_creation/Curved_Tiles.py:419-424 | the radius rule, the core and its side groups, shared by both wall builders |
| CurvedTiles.SpawnPlainFloorCores | tile_creation/Curved_Tiles.py:729-749 | a floor core has the base's own radius; the displacement copy is hidden |
| CurvedTiles.LeftCutterHeight | tile_creation/Curved_Tiles.py:501-504 | on a spawned core the left cutters sit 0.63 above the cursor, on the wall's mid-line |
| CurvedTiles.SpawnWallCutters | tile_creation/Curved_Tiles.py:464-555 | four distinct cutters: the left pair at the core start (fit tile_z − 1 and tile_z − 1.8, top raised 0.75), the right pair turned 180 − arc degrees and moved by the turn of −arc about the base location |
| CurvedTiles.SpawnRightCutters | tile_creation/Curved_Tiles.py:529-553 | the right pair is a copy of the left bottom cutter turned about the base, the top copy raised 0.75 and, where it has an array, refitted |
| CurvedTiles.SpawnOpenlockWallCores | tile_creation/Curved_Tiles.py:409-461 | the wall radius rule, side groups, and each cutter registered on both cores with a render-off DIFFERENCE boolean and an entry in use; the cutters' geometry type stays unset; the displacement core is hidden |
| CurvedTiles.AddWallCutters | tile_creation/Curved_Tiles.py:431-459 | the cutter registration half of the OpenLOCK wall builder |
| CurvedTiles.Trunc | tile_creation/Curved_Tiles.py:672 | `modf(x)[1]` is the integer part, rounded toward zero, for both signs |
| CurvedTiles.ClipsInsideArc | tile_creation/Curved_Tiles.py:672-698 | every clip of the ring lies inside the arc, at least one 22.5 degree step from both ends |
| CurvedTiles.ShortArcNoClips | tile_creation/Curved_Tiles.py:672 | an arc shorter than 45 degrees gets no clip |
| CurvedTiles.PlaceClip | tile_creation/Curved_Tiles.py:660-698 | the clip moved out to the middle of the base width, turned 180 degrees for an OUTER socket, turned to the first clip's angle (−arc/2 for one clip, else −22.5) and repeated by a circle array of the clip count with step −22.5 |
| CurvedTiles.SpawnClipCutter | tile_creation/Curved_Tiles.py:635-726 | the clip's placement, its name 'Clip.' + base name, wire, hidden, typed CUTTER, the hidden array empty parented to the base, and the base's render-off DIFFERENCE boolean and entry in use |
| CurvedTiles.SpawnOpenlockBase | tile_creation/Curved_Tiles.py:599-632 | base_y and base_z are forced to 0.5 and 0.2755, the base is named and typed BASE, and its only boolean and entry are the clip's |
| LTiles.DrawnSize | tile_creation/L_Tiles.py:727-733 | a drawn corner prism is as tall as the height it was drawn with |
| LTiles.CoreInset | tile_creation/L_Tiles.py:698-707 | the core's trace is inset by half the extra base thickness on each side: inset + core_y + inset = base_y |
| LTiles.CoreHeight | tile_creation/L_Tiles.py:731 | the core's height tile_z − base_z stacks on the base to the tile's height |
| LTiles.CoreOutlineOnBase | tile_creation/L_Tiles.py:698-733 | a wall as thick as its base is traced on the base's own outline, and a core as tall as the base has no height |
| LTiles.DrawCore | tile_creation/L_Tiles.py:698-735 | the cursor goes to the wall start of the inset outline at base height and the core prism, named tile + '.core', is drawn there |
| LTiles.ResetOrigin | tile_creation/L_Tiles.py:750-753 | the cursor goes to the world origin and the core's origin follows, leaving the geometry in place |
| LTiles.PlaceCore | tile_creation/L_Tiles.py:698-753 | the drawn core ends with its origin and the cursor at the world origin and its geometry where it was drawn |
| LTiles.SpawnWallCore | tile_creation/L_Tiles.py:677-754 | the core as placed, with its vertex groups as the wall classifier fills them for the core's height and z subdivisions |
| LTiles.SpawnFloorCore | tile_creation/L_Tiles.py:431-507 | the core as placed, with its vertex groups as the floor classifier fills them |
| LTiles.TexturedGroupsExist | tile_creation/L_Tiles.py:399 | the textured group names handed to the displacement helper ('Leg 1/2 Outer/Inner' for walls, 'Leg 1/2 Top' for floors) are groups the classifiers create |
| LTiles.SpawnPlainWallCores | tile_creation/L_Tiles.py:388-406 | the wall core with its groups; the displacement copy is hidden |
| LTiles.SpawnPlainFloorCores | tile_creation/L_Tiles.py:409-428 | the floor core with its groups; the displacement copy is hidden |
| LTiles.LegCuttersApart | tile_creation/L_Tiles.py:603-652 | the two bottom cutters follow the straight wall's recipe with leg_1_len as the length: base mid-line, 0.63 up, leg_1_len apart in x |
| LTiles.SpawnOpenlockWallCutters | tile_creation/L_Tiles.py:573-674 | four distinct cutters named 'Leg 1/2 Bottom/Top.' + tile, the Leg 2 pair leg_1_len along x and turned 180 degrees, fitted to tile_z − 1 and tile_z − 1.8, tops raised 0.75 |
| LTiles.LegOneFinalLoc | tile_creation/L_Tiles.py:548-552 | the Leg 1 cutters move base_y/2 along x and leg_2_len − base_y/2 along y, height unchanged |
| LTiles.FinalCutterPlacement | tile_creation/L_Tiles.py:535-552 | from a core at the origin, Leg 1 bottom ends at (base_y/2, leg_2_len, 0.63); Leg 2 bottom, before its turn, is at x = 2·leg_1_len − 2, the leg_1_len − 2 added on top of the leg_1_len already there |
| LTiles.RaisedCutterMoves | tile_creation/L_Tiles.py:535-552 | a top cutter stays 0.75 above its bottom cutter through both moves |
| LTiles.PlaceWallCutters | tile_creation/L_Tiles.py:532-553 | Leg 2 cutters shifted and turned by 90 − angle about the cursor; Leg 1 cutters moved and set to −90 degrees |
| LTiles.SpawnOpenlockWallCores | tile_creation/L_Tiles.py:510-570 | the wall core with its groups, the placed cutters, each core's stack gaining one `set_bool_props` boolean per cutter in order, the rename after the loop landing on the loop's last core, the displacement copy, which is hidden; the cursor left at the world origin |
| LTiles.AddLegCutters | tile_creation/L_Tiles.py:528-568 | the cutter half of the OpenLOCK wall builder: cutters placed, both stacks extended by the cutters' booleans, the core's origin, geometry and name kept, the rename on the displacement copy |
| LTiles.LegCutterNames | tile_creation/L_Tiles.py:604-664 | the four side cutters' names differ from each other |
| LTiles.SetBoolProps | tile_creation/L_Tiles.py:560 | the target gains the cutter's boolean last on its stack |
| LTiles.SetBoolsOnCores | tile_creation/L_Tiles.py:557-560 | both cores' stacks gain, in cutter order, one boolean per cutter |
| LTiles.RegisterLegCutters | tile_creation/L_Tiles.py:557-568 | the registration loop on both cores, then the displacement copy renamed tile + '.core' and hidden, and the cursor at the world origin |
| LTiles.SpawnLegCutters | tile_creation/L_Tiles.py:528-553 | the four cutters spawned and placed on the legs |
| LTiles.SpawnPlainBase | tile_creation/L_Tiles.py:757-787 | the base prism at the cursor, named tile + '.base' and typed BASE |
| LTiles.SlotOutline | tile_creation/L_Tiles.py:953-968 | the slot prism is 0.197 wide and 0.25 high, at the tile's angle |
| LTiles.SlotStopsShort | tile_creation/L_Tiles.py:953-962 | the slot's legs are the face line's legs less 0.236 each |
| LTiles.CreateSlotCutter | tile_creation/L_Tiles.py:922-972 | the cursor goes to the face line's wall start 0.01 down, and the slot named 'Slot.' + tile + '.base.cutter' is drawn there |
| LTiles.CreateClipCutter | tile_creation/L_Tiles.py:860-919 | the clip at corner + (0.5, offset, 0) with an array fitted to the leg length less 1 |
| LTiles.SpawnOpenlockBase | tile_creation/L_Tiles.py:790-857 | the base, the slot, the Leg 1 clip along the a leg turned 90 − angle about the corner, the Leg 2 clip along the c leg at −0.25 turned 90 degrees and mirrored; the base's stack is exactly the slot's, Leg 1's and Leg 2's booleans in that order; the cursor left at the world origin |
| LTiles.AddClipCutters | tile_creation/L_Tiles.py:816-850 | both clips placed and turned, only Leg 2's mirrored, and the base's stack extended by their booleans in order with its name and origin kept |
| CornerZones.ZoneName | tile_creation/L_Tiles.py:1004-1013 | every group name reads 'Leg 1 …' or 'Leg 2 …' by its leg |
| CornerZones.FirstFromSpec | tile_creation/L_Tiles.py:1030-1033 | the search from position j finds the first close vertex at or after j, or reports that none is close |
| CornerZones.FirstMatchSpec | tile_creation/L_Tiles.py:1029-1033 | a search with `break` selects at most one vertex, the first within 0.0001 in mesh order, and one exactly when some vertex is close |
| CornerZones.FirstMatchesSpec | tile_creation/L_Tiles.py:1069-1073 | searching a list selects at most one vertex per coordinate: exactly the first matches of the coordinates |
| CornerZones.AllCloseMayExceedOne | tile_creation/L_Tiles.py:1484-1491 | without `break` one coordinate can select two vertices |
| CornerZones.SideOffsetsShape | tile_creation/L_Tiles.py:1026-1054 | Inner/Outer probe offsets 0, 0.001, then 0.001 + k·d for k = 1..N+1, with d = (height − 0.002)/N, N+3 layers in all |
| CornerZones.EndOffsetsShape | tile_creation/L_Tiles.py:1066-1120 | End probes 0, 0.001, 0.001 + k·d for k = 1..N, then a final layer exactly at the object height |
| CornerZones.PathUnionSnoc | tile_creation/L_Tiles.py:1091-1107 | one more End layer adds the path through that layer's first matches |
| CornerZones.LayerUnionSpec | tile_creation/L_Tiles.py:1021-1056 | a vertex is in an Inner/Outer zone exactly when it is the first match of some recorded coordinate raised to some probed layer |
| CornerZones.LayerUnionSize | tile_creation/L_Tiles.py:1021-1056 | an Inner/Outer zone holds at most one vertex per coordinate and layer |
| CornerZones.PathUnionCovers | tile_creation/L_Tiles.py:1061-1120 | when path selection keeps its input, an End zone holds the first match of every coordinate on every layer |
| CornerZones.PairUnionSpec | tile_creation/L_Tiles.py:1124-1147 | Top/Bottom pairing handles exactly min(len(outer), len(inner)) pairs; every zone vertex comes from one of them |
| CornerZones.PairUnionCovers | tile_creation/L_Tiles.py:1131-1147 | with a path operator that keeps its input, every paired match is in the zone |
| CornerZones.AssignAgain | tile_creation/L_Tiles.py:1075-1089 | assigning to a group twice assigns the union |
| CornerZones.Fresh | tile_creation/L_Tiles.py:1004-1013 | the ten groups exist and start empty, for an object with no groups of those names yet |
| CornerZones.PhasesRecordedSpec | tile_creation/L_Tiles.py:1004-1120 | ten fresh groups assigned once each end up holding exactly what the Outer, Inner and End loops assigned |
| CornerZones.PhasesPairedSpec | tile_creation/L_Tiles.py:1122-1239 | the same for the Bottom and Top groups |
| CornerZones.AfterRecordedSpec | tile_creation/L_Tiles.py:1018-1120 | the Outer, Inner and End loops add to their six groups and leave the other four alone |
| CornerZones.AfterPairedSpec | tile_creation/L_Tiles.py:1122-1239 | the Bottom and Top loops add to their four groups and leave the other six alone |
| CornerZones.TrimmedSpec | tile_creation/L_Tiles.py:1503-1520 | removing side vertices changes the two Top groups only: each loses its own leg's Inner, Outer and End vertices |
| CornerZones.PairedSpec | tile_creation/L_Tiles.py:1018-1239 | the groups after the loops both classifiers share, run on fresh groups |
| CornerZones.WallGroupsSpec | tile_creation/L_Tiles.py:988-1243 | after the wall classifier each of the ten groups holds exactly its zone (layered first matches, per-layer paths, reversed-inner/outer pairs, pairs raised by the height), starting from the empty groups `Fresh` makes |
| CornerZones.FloorSidesSpec | tile_creation/L_Tiles.py:1276-1433 | the floor classifier's Inner, Outer, End and Bottom groups equal the wall classifier's |
| CornerZones.FloorTopSpec | tile_creation/L_Tiles.py:1435-1520 | a floor leg's Top group is the raised pairs searched within 0.0005 (Leg 2 keeping every close vertex) minus that leg's Inner, Outer and End zones |
| CornerZones.FloorTopDisjoint | tile_creation/L_Tiles.py:1503-1520 | on a floor no Top vertex of a leg is in that leg's Inner, Outer or End group |
| CornerZones.LiftEach | tile_creation/L_Tiles.py:1035-1036 | the in-place loop raises every coordinate by dz and keeps the list's length |
| CornerZones.EditMesh.DeselectAll | tile_creation/L_Tiles.py:1022-1023 | nothing stays selected |
| CornerZones.EditMesh.SelectClose | tile_creation/L_Tiles.py:1030-1033 | one search adds its pick (first match, or every close vertex without `break`) to the selection |
| CornerZones.EditMesh.SelectEach | tile_creation/L_Tiles.py:1029-1033 | a search per coordinate adds the coordinates' first matches |
| CornerZones.EditMesh.SelectPath | tile_creation/L_Tiles.py:1074 | the selection becomes the host's path selection of it |
| CornerZones.EditMesh.Assign | tile_creation/L_Tiles.py:1056 | the active group gains the selection |
| CornerZones.EditMesh.SelectBottomLayers | tile_creation/L_Tiles.py:1029-1042 | the corners and the layer 0.001 above them are selected, and the list is left raised by 0.001 |
| CornerZones.EditMesh.TagSide | tile_creation/L_Tiles.py:1021-1056 | one Inner/Outer group gains the first matches on every side layer |
| CornerZones.EditMesh.SelectSideLayers | tile_creation/L_Tiles.py:1029-1054 | the selection is the side's layered first matches |
| CornerZones.EditMesh.SelectNextLayer | tile_creation/L_Tiles.py:1046-1053 | one more layer d above the last is added to the selection |
| CornerZones.EditMesh.PathLayer | tile_creation/L_Tiles.py:1093-1105 | one End layer: the group gains the path through the layer's first matches |
| CornerZones.EditMesh.EndBase | tile_creation/L_Tiles.py:1061-1089 | the first two End layers are assigned and the list is left raised by 0.001 |
| CornerZones.EditMesh.EndLayer | tile_creation/L_Tiles.py:1093-1105 | one further End layer dz above the previous |
| CornerZones.EditMesh.EndSubdivLayers | tile_creation/L_Tiles.py:1091-1107 | the `while i < N` End layers, each d above the last |
| CornerZones.EditMesh.TagEnd | tile_creation/L_Tiles.py:1061-1120 | one End group gains the per-layer paths over the End offsets |
| CornerZones.EditMesh.TagPair | tile_creation/L_Tiles.py:1131-1147 | one Top/Bottom group gains the paths of inner[i] and outer[i] for every shared index |
| CornerZones.EditMesh.NewZoneGroups | tile_creation/L_Tiles.py:1004-1013 | the groups become `Fresh` of the old groups: the ten zone groups exist and are empty |
| CornerZones.EditMesh.TagRecorded | tile_creation/L_Tiles.py:1018-1120 | the Inner, Outer and End loops in order |
| CornerZones.EditMesh.TagPaired | tile_creation/L_Tiles.py:1122-1239 | the Bottom and Top loops in order, with the Top tolerance and `break` as given |
| CornerZones.EditMesh.CornerWallToVertGroups | tile_creation/L_Tiles.py:988-1243 | the groups become the wall classifier's groups |
| CornerZones.EditMesh.CornerFloorToVertGroups | tile_creation/L_Tiles.py:1246-1520 | the groups become the floor classifier's groups |
| CornerZones.EditMesh.RemoveSideVerts | tile_creation/L_Tiles.py:1504-1511 | one leg's Top group loses its Inner, Outer and End vertices |
| StraightWallTile.CentredLo | tile_creation/create_straight_wall_tile.py:101-105 | a cuboid placed by the base's moves is centred on the cursor in x and y and stands on it |
| StraightWallTile.SlotInsideOpenlockBase | tile_creation/create_straight_wall_tile.py:124-170 | on an OpenLOCK base the slot stops 0.236 short of both ends, lies within the base's depth, starts 0.001 below the base and stops below its top |
| StraightWallTile.ClipAlongBase | tile_creation/create_straight_wall_tile.py:223-234 | the clip array starts half a unit in from the base's start and its fit length (base x − 1) ends half a unit short of the base's end; on an OpenLOCK base it runs on the centre line |
| StraightWallTile.CoreOnBase | tile_creation/create_straight_wall_tile.py:278-291 | the core is centred on the cursor, its bottom is the base's top and its top is the tile's height above the cursor |
| StraightWallTile.SideCuttersAtCoreEnds | tile_creation/create_straight_wall_tile.py:363-422 | the bottom side cutters sit at the core's two x ends, on its y mid-plane, 0.63 above the cursor, symmetric about the cursor |
| StraightWallTile.CreatePlainBase | tile_creation/create_straight_wall_tile.py:90-121 | a new base object of the base size, named tile + '.base', centred on the cursor and standing on it |
| StraightWallTile.CreateSlotCutter | tile_creation/create_straight_wall_tile.py:144-187 | the slot cutter's size and place under the base, the base's DIFFERENCE boolean for it, and the cutter parented, shown as bounds and left visible |
| StraightWallTile.CreateClipCutter | tile_creation/create_straight_wall_tile.py:190-239 | the clip cutter placed half a unit in from the base's start with an array fitted to base x − 1 |
| StraightWallTile.CreateOpenlockBase | tile_creation/create_straight_wall_tile.py:124-141 | the base with the slot cutter at offset 0.018, and a clip cutter exactly when the base is at least one unit long |
| StraightWallTile.CreateCore | tile_creation/create_straight_wall_tile.py:271-310 | the core of size (tile x, tile y, tile z − base z) centred on the cursor and raised by the base's height |
| StraightWallTile.CreateCores | tile_creation/create_straight_wall_tile.py:242-268 | two distinct cores of the same geometry, both parented to the base; the displacement core hidden; PREVIEW and DISPLACEMENT types |
| StraightWallTile.CreateWallCutters | tile_creation/create_straight_wall_tile.py:339-426 | four distinct side cutters: bottom at the core's ends with fit length tile z − 1, top copies raised 0.75 with tile z − 1.8, the right pair turned 180 degrees |
| StraightWallTile.AddOpenlockCutters | tile_creation/create_straight_wall_tile.py:321-336 | each core gains, per cutter and in order, one DIFFERENCE boolean named cutter + '.bool' and one in-use collection entry parented to that core |
| StraightWallTile.CreateOpenlockCores | tile_creation/create_straight_wall_tile.py:313-336 | both cores end with exactly the four cutters' booleans and entries |
| StraightWallTile.CreateBase | tile_creation/create_straight_wall_tile.py:37-55 | a base exists exactly for OPENLOCK, PLAIN and NONE; OPENLOCK forces the base size (tile x, 0.5, 0.2755); NONE is an empty at the origin |
| StraightWallTile.CreateMainPart | tile_creation/create_straight_wall_tile.py:57-72 | cores exist exactly for OPENLOCK and PLAIN; OPENLOCK forces thickness 0.3149 and adds the side cutters; PLAIN hides the displacement core |
| StraightWallTile.CreateStraightWall | tile_creation/create_straight_wall_tile.py:19-83 | with a known base blueprint the cursor and the empty end at the cursor's original location and the base is parented to the empty; an unknown one stops with both at the origin and nothing made |
| TrimTile.BoxCorner | operators/trim_tile.py:533 | each `bound_box` corner lies in the box |
| TrimTile.Swept | operators/trim_tile.py:536-550 | the turtle's extrusion fills, per axis, the span between where the pen went down and where it stopped |
| TrimTile.Drawn | operators/trim_tile.py:536-550 | the drawn object fills the swept box, has its origin where `add_turtle` put the turtle, and starts with no modifiers, cutters or parent |
| TrimTile.SlabTrimsBuffer | operators/trim_tile.py:531-677 | a trimmer's slab holds exactly the points of the box no deeper than the buffer from its side |
| TrimTile.CreateXNegTrimmer | operators/trim_tile.py:531-553 | the X Neg move sequence draws the X Neg slab; its origin is the cursor as the builder found it, and the cursor is left where the turtle stopped |
| TrimTile.CreateXPosTrimmer | operators/trim_tile.py:556-578 | the X Pos move sequence draws the X Pos slab; its origin is the cursor as the builder found it, and the cursor is left where the turtle stopped |
| TrimTile.CreateYNegTrimmer | operators/trim_tile.py:581-602 | the Y Neg move sequence draws the Y Neg slab; its origin is the cursor as the builder found it, and the cursor is left where the turtle stopped |
| TrimTile.CreateYPosTrimmer | operators/trim_tile.py:605-627 | the Y Pos move sequence draws the Y Pos slab; its origin is the cursor as the builder found it, and the cursor is left where the turtle stopped |
| TrimTile.CreateZPosTrimmerAsWritten | operators/trim_tile.py:630-651 | the Z Pos move sequence as written draws a box starting 1 before the box's high y; its origin is the cursor as found, and the cursor is left where the turtle stopped |
| TrimTile.ZPosAsWrittenMissesFront | operators/trim_tile.py:630-651 | on the box (0,0,0)-(1,2,1) with buffer 0.1 the point (0.5, 0.5, 0.95) is within the buffer of the top but outside that trimmer |
| TrimTile.ZPosAsWrittenShallow | operators/trim_tile.py:630-651 | on a box no deeper than 1 the trimmer as written trims exactly the intended slab |
| TrimTile.CreateZPosTrimmer | operators/trim_tile.py:630-651 | the corrected Z Pos trimmer draws the Z Pos slab; its origin is the cursor as found, and the cursor is left where the turtle stopped |
| TrimTile.CreateZNegTrimmer | operators/trim_tile.py:654-677 | the Z Neg move sequence draws the Z Neg slab; its origin is the cursor as the builder found it, and the cursor is left where the turtle stopped |
| TrimTile.ProxySize | operators/trim_tile.py:441-447 | (tile x, base y, tile z) whenever the blueprint is not 'NONE', the tile size when it is the identical 'NONE' object; x and z are always the tile's |
| TrimTile.ProxySizeIdentity | operators/trim_tile.py:441 | a blueprint equal to 'NONE' but not the same object still takes the base's y |
| TrimTile.ProxyExtent | operators/trim_tile.py:450-456 | the proxy's box has the proxy size, is centred in x and y and starts at 0 in z |
| TrimTile.BoundingProxy | operators/trim_tile.py:437-456 | the proxy drawn at the cursor and recentred has exactly that box |
| TrimTile.TrimmerNamesDistinct | operators/trim_tile.py:464-475 | the six names of a tile differ from each other |
| TrimTile.TrimmerBoxesSpec | operators/trim_tile.py:464-475 | every trimmer but Z Pos fills its side's slab whichever Z Pos builder runs; Z Pos fills the slab as intended and the shifted box as written |
| TrimTile.NamedTrimmer | operators/trim_tile.py:464-475 | one side's trimmer with its name, its box (the as-written Z Pos box when so chosen) and its origin at the cursor as found; the cursor is left at that side's turtle stop |
| TrimTile.AddTrimmer | operators/trim_tile.py:464-475 | the next side's trimmer is new, distinct from those before, and appended with its name, box and origin (where the previous turtle stopped); the cursor moves on to the next trimmer's origin |
| TrimTile.CreateSixTrimmers | operators/trim_tile.py:464-475 | six distinct new trimmers, named in order, the i-th filling the i-th side's box; the first has its origin at the starting cursor, each later one where the turtle before it stopped |
| TrimTile.DrawTrimmers | operators/trim_tile.py:433-484 | the proxy's six trimmers named after the tile, each filling its side's box with its origin where its turtle was added; the cursor is back where it was |
| TrimTile.OriginSet | operators/trim_tile.py:492 | each selected object's origin goes to the cursor and its geometry stays |
| TrimTile.MoveOrigins | operators/trim_tile.py:486-492 | with all six selected every origin reaches the cursor; with only the last drawn selected, that one does and the other five keep the origins they had; no geometry moves |
| TrimTile.RegisterTrimmer | operators/trim_tile.py:494-507 | the trimmer is bounds-drawn, parented to the empty and typed as trimmer; the empty gains an entry (value off, parent the empty) |
| TrimTile.RegisterTrimmers | operators/trim_tile.py:494-507 | every trimmer registered in order with origin and geometry kept; the empty's collection gains one off entry per trimmer |
| TrimTile.PlaceTrimmers | operators/trim_tile.py:486-507 | the origin move on the selection followed by the registration loop: boxes kept, origins as the move leaves them (the five unselected keep the ones they had), every trimmer registered off on the empty |
| TrimTile.CreateCuboidTileTrimmersAsWritten | operators/trim_tile.py:426-511 | as written: six trimmers named after the tile, five filling their sides' slabs and Z Pos the shifted box; only Z Neg has its origin at the cursor; X Neg keeps it there too, being drawn first, and each of the other four keeps its origin where the turtle before it stopped; all registered off on the empty; the cursor is back |
| TrimTile.XPosOriginAsWritten | operators/trim_tile.py:486-492 | for a 1 x 1 x 1 tile with no base, buffer 0.1 and the cursor at the world origin, the X Pos trimmer keeps its origin where the X Neg turtle stopped, (-0.9, 1, 1.5), not the cursor |
| TrimTile.CreateCuboidTileTrimmers | operators/trim_tile.py:426-511 | as intended: six trimmers named after the tile, each trimming its side's slab with its origin at the cursor, registered off on the empty; the cursor is back |
| TrimTile.TrimmerBool | operators/trim_tile.py:514-522 | the trimmer's boolean is named trimmer + '.bool', starts hidden in the viewport, and once shown is the cutter boolean |
| TrimTile.AddBoolModifier | operators/trim_tile.py:514-522 | the tile gains that boolean last; the trimmer is parented to the tile, drawn as bounds and hidden |
| TrimTile.TrimSide | operators/trim_tile.py:525-528 | found exactly when the tile has the boolean; only that boolean's viewport flag turns on; a missing one changes nothing |
| TrimTile.TrimSideEnables | operators/trim_tile.py:514-528 | after `add_bool_modifier` on a tile without such a boolean, `trim_side` turns exactly the new boolean on |
| TrimTile.CurvedTrimmer | operators/trim_tile.py:56-89 | a curved slab at radius − buffer exactly for 'POS', otherwise arcs at radius + buffer and radius − width; dropped 0.5 either way |
| TrimTile.CurvedTrimmerSpansTile | operators/trim_tile.py:9-89 | called with the tile height + 1 either branch reaches from 0.5 below the tile to at least 0.5 above it |
| Properties.SortedUnique | properties.py:109 | two sorted lists of the same items are equal, so the sorted enum list does not depend on the input order |
| Properties.Insert | properties.py:109 | inserting into a sorted list keeps it sorted and adds exactly the item |
| Properties.Sort | properties.py:109 | `sorted`: sorted and a permutation of its input |
| Properties.TypeItems | properties.py:95-108 | an entry is in the list iff it is the (mt_type, bl_label, '') of a generator without INTERNAL, and there are as many entries as such generators |
| Properties.TileTypeEnums | properties.py:95-109 | empty without a context; otherwise sorted, a permutation of `TypeItems` and so one entry per listed generator |
| Properties.FirstOfType | properties.py:126-127 | the first tile-defaults entry of the tile type, or none exactly when no entry has it |
| Properties.BlueprintEnums | properties.py:112-155 | an error without a context; empty without 'tile_defaults' or a matching entry; otherwise the sorted items of the first matching entry |
| Properties.BlueprintEnumsItems | properties.py:126-131 | the entries are exactly the matching entry's blueprint items, in sorted order whatever their dictionary order |
| Properties.FirstForBlueprint | properties.py:162-166 | the first listed generator with the blueprint, or none exactly when there is none |
| Properties.SetAllUntouched | properties.py:197-198 | a setting no pair names is unchanged |
| Properties.SetAllLast | properties.py:197-198 | a setting ends with the value of the last pair naming it |
| Properties.FirstGroup | properties.py:195-199 | the first group stored under the blueprint, or none exactly when there is none |
| Properties.ApplyDefaultsNoMatch | properties.py:191-199 | without an entry for the tile type nothing changes |
| Properties.ApplyDefaultsSingle | properties.py:191-199 | with one entry for the tile type, exactly its settings under the blueprint are applied |
| Properties.ApplyDefaultsUntouched | properties.py:185-216 | a setting not named under the selected blueprint of a matching entry is unchanged |
| Properties.ShowKeepsLookup | properties.py:79-83 | toggling a modifier's visibility does not change which modifier a name finds |
| Properties.UpdateUseCutter | properties.py:79-83 | with a parent, its boolean named cutter + '.bool' shows exactly when the item is in use; a missing parent or boolean is an error that changes nothing; no parent changes nothing; no other object changes |
| Properties.SceneProps.UpdateBaseX | properties.py:243-255 | base x becomes tile x exactly when x is proportionate |
| Properties.SceneProps.UpdateBaseY | properties.py:258-270 | base y becomes tile y exactly when y is proportionate |
| Properties.SceneProps.UpdateBaseZ | properties.py:273-285 | base z becomes tile z exactly when z is proportionate |
| Properties.FindForBlueprint | properties.py:162-166 | the loop finds the first listed generator for the blueprint, or none exactly when there is none |
| Properties.CurvedWallIdnameRejected | properties.py:158-166 | with the curved wall generator as the blueprint's only generator, its `bl_idname` 'object.make_curved_wall' is not among the tile types the enum offers |
| Properties.SceneProps.UpdateTileBlueprintAsWritten | properties.py:158-166 | as written: the first listed generator's `bl_idname` is assigned, accepted exactly when it is one of the listed generators' `mt_type` values and refused (tile type unchanged) otherwise; no generator for the blueprint changes nothing |
| Properties.SceneProps.UpdateTileBlueprint | properties.py:158-166 | as intended: the tile type becomes the first listed generator's `mt_type` for the blueprint, always a value the enum offers; unchanged when there is none |
| Properties.SceneProps.SetPairs | properties.py:197-198 | the settings after `setattr` of each pair |
| Properties.SceneProps.SetGroup | properties.py:195-199 | the settings of the first group under the blueprint are applied, then the loop stops |
| Properties.SceneProps.UpdateDefaults | properties.py:185-216 | ok exactly when 'tile_defaults' exists; then the defaults of every matching entry under the blueprint are applied; otherwise nothing changes |
| Properties.SceneProps.UpdateBaseDefaults | properties.py:185-199 | the same for the selected base blueprint |
| Properties.SceneProps.UpdateMainPartDefaults | properties.py:202-216 | the same for the selected main-part blueprint |
| MeshObjects.VertsWith | operators/bakedisplacement.py:64 | exactly the vertices carrying the material |
| MeshObjects.Painted | operators/return_to_preview.py:43 | the group's vertices get the material, every other vertex keeps its own, no vertex is added |
| MeshObjects.AddSlot | operators/bakedisplacement.py:96-100 | the material has a slot afterwards; the old slots stay first and at most one is added |
| MeshObjects.MeshObj.AssignMatToVertGroup | operators/bakedisplacement.py:47 | the group is painted with the material, which gets a slot if it had none |
| BakeDisplacement.Register | operators/bakedisplacement.py:52-59 | the old materials stay first; the primary joins exactly when it is absent and not the secondary; no duplicates appear |
| BakeDisplacement.RegisterIdempotent | operators/bakedisplacement.py:56-59 | registering the same material twice is the same as once |
| BakeDisplacement.TexturedVerts | operators/bakedisplacement.py:61-65 | a vertex is textured exactly when its material is registered |
| BakeDisplacement.CollectTextured | operators/bakedisplacement.py:61-65 | the union loop gathers exactly the textured vertices |
| BakeDisplacement.AssignMaterialAsWritten | operators/bakedisplacement.py:37-75 | primary painted, given a slot if it had none, and registered; with 'disp_mod_vert_group' on the displacement object the group becomes exactly the textured vertices; without it a group is made on the wrong object and the operator fails |
| BakeDisplacement.AssignMaterial | operators/bakedisplacement.py:37-75 | as intended: primary painted, given a slot if it had none, and registered; either way the displacement object's group holds exactly the vertices carrying a registered material |
| BakeDisplacement.RemoveMaterial | operators/bakedisplacement.py:90-103 | the group's vertices all carry the secondary material, which has a slot afterwards |
| BakeDisplacement.DispStrength | operators/bakedisplacement.py:182-188 | negated exactly when 'disp_dir' is 'neg', including when 'disp_dir' is absent |
| BakeDisplacement.RenderSettings.Restore | operators/bakedisplacement.py:233-237 | the saved settings are back |
| BakeDisplacement.RenderSettings.SetProjection | operators/bakedisplacement.py:202-204 | selected-to-active, cage extrusion 1, margin 4 |
| BakeDisplacement.StoreStrengths | operators/bakedisplacement.py:163-188 | the last material's signed strength remains; without materials the old value stays |
| BakeDisplacement.Survivors | operators/bakedisplacement.py:208-209 | popping index 0 while iterating leaves the later half of the slots, rounded down |
| BakeDisplacement.PopWhileIterating | operators/bakedisplacement.py:208-209 | the slots become those survivors |
| BakeDisplacement.SurvivorsKeepsSlots | operators/bakedisplacement.py:228-229 | with two or more slots the last slot survives the loop |
| BakeDisplacement.ReplaceSlots | operators/bakedisplacement.py:208-210 | the survivors plus the one added material |
| BakeDisplacement.BakeDisplacementMap | operators/bakedisplacement.py:142-239 | ok exactly with a displacement material; then the render settings end as saved; the image is named object + '.image'; the slots end as the survivors of two pop loops with the secondary last; without one the bake fails with the bake setup still in place |
| BakeDisplacement.WithDisplace | operators/bakedisplacement.py:131-132 | only the displacement settings change |
| BakeDisplacement.BakeExecute | operators/bakedisplacement.py:118-139 | after a good bake the displacement modifier has mid level 0 and strength 0.1, the subdivision levels are the scene's, the preview is hidden; a missing modifier, a 'disp_mod_name' modifier that is not a displacement modifier, or a 'subsurf_mod_name' modifier that is not a subdivision modifier fails the run with the modifiers as the earlier steps left them; the render settings (engine, samples, tile size, bake type) are restored unless the bake raised, the projection settings, stored strength and material slots are what `bake_displacement_map` leaves; a failed bake stops there |
| ReturnToPreview.PaintEntries | operators/return_to_preview.py:45-50 | painting the entries back keeps the set of vertices |
| ReturnToPreview.SlotEntries | operators/return_to_preview.py:45-50 | the old slots stay first and exactly the painted-back materials are added |
| ReturnToPreview.LastCovering | operators/return_to_preview.py:47-50 | a covering entry exists exactly when some painted-back entry's group holds the vertex |
| ReturnToPreview.PaintEntriesLastWins | operators/return_to_preview.py:45-50 | each vertex ends with its last covering entry's material, or keeps its own |
| ReturnToPreview.UncoveredKeepSecondary | operators/return_to_preview.py:43-50 | a displacement-group vertex no entry covers keeps the secondary material |
| ReturnToPreview.MoveToEnd | operators/return_to_preview.py:59-60 | the k-th modifier moves last; the others keep their order; nothing is lost |
| ReturnToPreview.MoveLastToEnd | operators/return_to_preview.py:59-60 | moving the last modifier changes nothing |
| ReturnToPreview.SubsurfLast | operators/return_to_preview.py:59-60 | a permutation with the subdivision modifier last; unchanged when it is missing |
| ReturnToPreview.SubsurfLastIdempotent | operators/return_to_preview.py:59-60 | moving it again changes nothing |
| ReturnToPreview.Flattened | operators/return_to_preview.py:37-39 | the displacement strength is zero and the mid level kept |
| ReturnToPreview.FlattenDisp | operators/return_to_preview.py:37-39 | defined exactly when the named modifier exists and is a displacement; then only its strength changes, to zero |
| ReturnToPreview.SetToPreview | operators/return_to_preview.py:28-62 | ok exactly when the displacement modifier can be flattened; then strength zero, secondary over the displacement group, preview materials painted back in order, subdivision last, adaptive subdivision on, PREVIEW; otherwise nothing changes |
| ReturnToPreview.RestoreMaterials | operators/return_to_preview.py:43-50 | the secondary over the displacement group, then the entries in order |
| ReturnToPreview.PaintPreviewMaterials | operators/return_to_preview.py:45-50 | the loop paints exactly `PaintEntries` and adds exactly `SlotEntries` |
| ReturnToPreview.Execute | operators/return_to_preview.py:19-25 | every eligible object before the first failure is set to preview (flattened displacement, subdivision last, preview materials and slots restored, adaptive subdivision on, PREVIEW); the failure is an eligible object whose displacement modifier is missing or not a displacement modifier; ineligible objects and those from the failure on are unchanged; after a run that went through no object is eligible |
| ReturnToPreview.NothingLeftToPreview | operators/return_to_preview.py:19-25 | given what `Execute` ensures of a run that went through, no selected object is eligible afterwards, so a second run is a no-op |

## Left out

- Blender's mesh operators (`smart_project`, `origin_set` beyond its effect on the origin, rotation and mirroring, `shortest_path_select`, boolean, array and bend evaluation, `bake`): only their effect on the modelled state is stated, as parameters or assumed contracts; the geometry they produce is not modelled.
- The turtle library, `draw_cuboid`, the corner and curved drawing helpers, `calculate_corner_wall_triangles`, `select_by_loc`, `vectors_are_close`, `add_circle_array`, `create_displacement_core`, `assign_mat_to_vert_group`, `get_verts_with_material` and `clear_vert_group` are not part of this model; each is a parameter or a stated, assumed contract.
- Trigonometry inside rotations about a centre: a `turn` parameter.
- Floating point: coordinates are exact reals, so rounding in the tolerance tests is not captured; the tolerances are the source's constants.
- UV unwrapping, materials and shader node rewiring (operators/bakedisplacement.py:163-226 beyond the stored strength), the baked image's pixels and packing.
- The curved floor's and the L floor's vertex-group helpers other than the corner classifier, and the trimmers of the curved, corner and triangular tiles other than `create_curved_trimmer`'s branch.
- properties.py: `update_scene_defaults`, `load_material_enums`, the displacement, subdivision, mapping and UV-margin callbacks, and the property declarations themselves.
- Poll methods of the operators, and registration of classes with Blender.
- ui/, preferences.py, operators/voxeliser.py, operators/create_lighting_setup.py and lib/utils/update_scene_props.py: UI drawing, asset-library loading and file copying, remeshing and renderer setup.
- The import of `create_tile_trimmers` at tile_creation/create_straight_wall_tile.py:14-15 names a function operators/trim_tile.py does not define; the arithmetic is modelled, not the import.
- ReturnToPreview.SetToPreview: `modifier_move_to_index` with a subdivision modifier name that is not on the stack is taken to be cancelled (the stack is unchanged); the host's behaviour there is not part of this model.
- ReturnToPreview.SetToPreview: looking up the secondary material by its name (operators/return_to_preview.py:35) is assumed to succeed; the KeyError is not modelled. The same holds for BakeDisplacement.RemoveMaterial and BakeDisplacement.AssignMaterial.
- BakeDisplacement.BakeExecute: the 'disp_texture' lookup and the texture assignment (operators/bakedisplacement.py:127-130) are not modelled.
- BakeDisplacement.BakeExecute: `preview` is the context object, while `bake_displacement_map` projects from the displacement object's `linked_object` (operators/bakedisplacement.py:195); the two are taken to be the same object, as the tile builders link the cores to each other.
- BakeDisplacement.BakeDisplacementMap: the preview object's selection and activation are not modelled, only that both objects are shown.
- Properties.UpdateUseCutter: `self.parent is not ""` is modelled as inequality with the empty string (identity and equality agree for the interned empty string).
- Properties.BlueprintEnums: Python's tuple order on enum entries is modelled as lexicographic order by code point on the identifier, then the label, then the description.
- StraightWallTile.CreateCores: `create_displacement_object` (tile_creation/create_straight_wall_tile.py:247) is not part of this model; its result is taken to be a copy of the preview core under the name `dispName`.
- CornerZones.Fresh: `vertex_groups.new` on a name the object already uses makes a numbered group ('Leg 1 End.001') in the host, and the later assignments then go to the old group with its vertices; the model takes the ten names to be unused, so its groups start empty. CornerZones.WallGroupsSpec, CornerZones.FloorSidesSpec, CornerZones.FloorTopSpec and BakeDisplacement.AssignMaterialAsWritten (its 'disp_mod_vert_group' on the active object) rest on the same assumption.
- TrimTile.MoveOrigins: the selection `origin_set` acts on after the six trimmers are drawn is taken to be the last-drawn Z Neg trimmer alone; what the turtle's `add_turtle` and the drawing helpers leave selected is not part of this model.
- LTiles.SpawnOpenlockBase: the rotation of the first clip cutter and the mirror of the second (tile_creation/L_Tiles.py:824-844) are taken to act on the clip just drawn and selected; the selection itself is not modelled.
- LTiles.SetBoolProps: the boolean modifier `set_bool_props` adds is the `boolFor` parameter, since lib/utils/utils.py's `set_bool_props` is not part of this model; `set_bool_obj_props` (tile_creation/L_Tiles.py:558, 813-814, 849), which changes only the cutters' display settings and parent, is not modelled; the displacement copy that `create_displacement_core` makes arrives as the `displacement` parameter.
- LTiles.SpawnOpenlockWallCores: Blender keeps object names unique, so when the preview core is renamed to the tile name plus '.core' after the displacement core took that name, the host gives one of them a numbered variant ('.001'); the model assigns both names verbatim, so its `displacement.name == preview.name` does not hold in the host. The same holds for LTiles.RegisterLegCutters.
- CurvedTiles.SpawnCore: the arc in degrees may be 0 (its property's minimum, properties.py:680-686), and then tile_creation/Curved_Tiles.py:766 raises ZeroDivisionError; the model requires a non-zero arc instead of modelling that error. The same requires, for the same reason, is on CurvedTiles.WallLength and on its callers CurvedTiles.SpawnPlainWallCores, CurvedTiles.SpawnWallCore, CurvedTiles.SpawnPlainFloorCores and CurvedTiles.SpawnOpenlockWallCores.
- CornerZones.EditMesh.CornerWallToVertGroups: the Z subdivision count has no minimum (properties.py:444-448), and a count of 0 makes tile_creation/L_Tiles.py:1027 raise ZeroDivisionError; the model requires a non-zero count instead of modelling that error. Its callers LTiles.SpawnWallCore, LTiles.SpawnPlainWallCores and LTiles.SpawnOpenlockWallCores carry the same requires.
- CornerZones.EditMesh.CornerFloorToVertGroups: likewise for tile_creation/L_Tiles.py:1285 (a Z subdivision count of 0 raises ZeroDivisionError); its callers LTiles.SpawnFloorCore and LTiles.SpawnPlainFloorCores carry the same requires.
- BakeDisplacement.Survivors: popping index 0 while iterating is modelled with Python list-iterator semantics (the index advances while the list shrinks, so the later half survives); the material list is a Blender collection, whose iterator behaviour under removal is the host's and is not part of this model; if that iterator fixes the item count when it starts, every slot is popped instead. BakeDisplacement.PopWhileIterating, BakeDisplacement.SurvivorsKeepsSlots, BakeDisplacement.ReplaceSlots and BakeDisplacement.BakeDisplacementMap rest on the same assumption.
- Properties.SceneProps.SetPairs: `setattr` is modelled as an update of a string-keyed settings map, kept apart from the modelled fields (tile type, blueprints, defaults); a stored key naming one of those fields would change it in the host, and the `update` callbacks a `setattr` fires are not run. Properties.SceneProps.SetGroup, Properties.SceneProps.UpdateDefaults, Properties.SceneProps.UpdateBaseDefaults and Properties.SceneProps.UpdateMainPartDefaults rest on the same simplification.
- MeshObjects.MeshObj: each vertex carries exactly one material (`vertMaterial` maps a vertex to one name), while `get_verts_with_material` in the host gathers the vertices of the faces that have a material, so a vertex on the border between two materials belongs to both; BakeDisplacement.TexturedVerts and BakeDisplacement.AssignMaterial rest on this one-material-per-vertex view.
- TrimTile.Drawn: the turtle library is not part of this model; the drawn object is taken to have its origin where the cursor was when `add_turtle` ran and its mesh to be the box the pen swept.
- BakeDisplacement.BakeExecute: one field, `MeshObj.dispModName`, stands both for the ID property `disp_obj['disp_mod_name']` read at operators/bakedisplacement.py:129 and for `mt_object_props.disp_mod_name` read at operators/return_to_preview.py:37; the two are taken to hold the same name, and the KeyError of a missing ID property is not modelled. `MeshObj.subsurfModName` likewise stands for `disp_obj['subsurf_mod_name']` (operators/bakedisplacement.py:133) and `mt_object_props.subsurf_mod_name` (operators/return_to_preview.py:60).
- Properties.SceneProps.UpdateTileBlueprint: no property in properties.py declares `update_tile_blueprint` as its update callback (`tile_blueprint` at properties.py:397-401 and 811-814 has none), so nothing in the add-on calls it; it is modelled as the function it is. Properties.SceneProps.UpdateTileBlueprintAsWritten models the refusal of the `bl_idname` only as the tile type staying unchanged; the host raises TypeError there.
- TrimTile.RegisterTrimmer: the trimmer's `tile_name` and `is_mt_object` properties (operators/trim_tile.py:499, 501) are not modelled, as no modelled operation reads them; the same properties set by the tile builders are left out for the same reason. The deletion of the bounding proxy (operators/trim_tile.py:509) is not modelled either, since the scene's object list is not part of this model.
- CurvedTiles.SpawnWallCore: the side groups are classified against the unbent core's box (`preview.size`), while in the host the viewport-visible bend modifier added by `spawn_core` (tile_creation/Curved_Tiles.py:804-808) is in place when `straight_wall_to_vert_groups` reads `obj.dimensions` (tile_creation/Straight_Tiles.py:551), which may then be the bent mesh's. CurvedTiles.SpawnPlainWallCores and CurvedTiles.SpawnOpenlockWallCores rest on the same reading.
- Selection state, active objects, collections an object is linked into, and undo.

## Findings

| source | as written | input that shows it | evidently intended | confidence | as-written member | corrected member |
|---|---|---|---|---|---|---|
| operators/trim_tile.py:630-651 | the Z Pos trimmer starts at `bound_box[2]`, the top corner at the box's high y, and goes back only 1 before sweeping forward the depth plus 1 | box (0,0,0)-(1,2,1), buffer 0.1: the point (0.5, 0.5, 0.95) is within the buffer of the top but outside the trimmer | the mirror of the Z Neg trimmer: from the top corner at the low y, back 0.5, then forward the depth plus 1, so the slab covers the whole top | not executed | TrimTile.CreateZPosTrimmerAsWritten, TrimTile.ZPosAsWrittenMissesFront | TrimTile.CreateZPosTrimmer |
| operators/trim_tile.py:486-492 | the context listing all six trimmers is built but not passed to `origin_set`, which therefore acts on the selection; each builder deselects everything before drawing, so only the Z Neg trimmer is selected | a 1 x 1 x 1 tile with no base, buffer 0.1, cursor at the world origin: the X Pos trimmer's origin stays at (-0.9, 1, 1.5), where the X Neg turtle stopped | `origin_set` with that context, so all six origins go to the cursor | not executed | TrimTile.CreateCuboidTileTrimmersAsWritten, TrimTile.XPosOriginAsWritten | TrimTile.CreateCuboidTileTrimmers |
| operators/bakedisplacement.py:71-73 | where the displacement object has no 'disp_mod_vert_group', the group is made on the active object and the next line uses `disp_vert_group`, which is unbound there | a displacement object without a vertex group named 'disp_mod_vert_group' | the group is made on the displacement object and filled with the textured vertices | not executed | BakeDisplacement.AssignMaterialAsWritten | BakeDisplacement.AssignMaterial |
| properties.py:158-166 | `update_tile_blueprint` assigns the generator's `bl_idname` to `tile_type`, whose enum entries are the generators' `mt_type` values (properties.py:95-109) | the curved wall generator (tile_creation/Curved_Tiles.py:86-90) as the first for its blueprint: 'object.make_curved_wall' is not a tile type, so the assignment is refused | the generator's `mt_type`, 'CURVED_WALL' | not executed | Properties.SceneProps.UpdateTileBlueprintAsWritten, Properties.CurvedWallIdnameRejected | Properties.SceneProps.UpdateTileBlueprint |
