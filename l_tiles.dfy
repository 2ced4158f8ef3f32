/**
 * The angled (L) tile builders (`tile_creation/L_Tiles.py`): the corner
 * core traced inset from the base and sorted into its ten vertex groups,
 * the four OpenLOCK side cutters and where they end up on the two legs, and
 * the OpenLOCK base with its corner slot cutter and the two clip cutters.
 *
 * The corner geometry itself is the host's: `calculate_corner_wall_triangles`
 * is the parameter `tris`, `move_cursor_to_wall_start` is `wallStart` (the
 * new cursor location), the x and y extents of a drawn corner prism are
 * `plan`, and turning an object about a centre is `turn` (location, centre,
 * degrees). A drawn corner prism is created at the cursor and is as tall as
 * it was asked to be.
 */
module LTiles {
  import opened Common
  import opened Objects
  import StraightTiles
  import CornerZones

  /** The triangle legs `calculate_corner_wall_triangles` returns. */
  datatype Triangles = Triangles(aAdj: real, bAdj: real, cAdj: real, dAdj: real)

  /** One call of a corner-prism drawing helper: its triangles, angle, thickness and height. */
  datatype Corner = Corner(tri: Triangles, angle: real, thickness: real, height: real)

  /** The tile properties the L builders read. */
  datatype LProps = LProps(
    tileName: string,
    tileSize: Vec3,
    baseSize: Vec3,
    leg1Len: real,
    leg2Len: real,
    angle: real,
    /** `z_native_subdivisions`. */
    zSubdivisions: int)

  /** The size of a drawn corner prism: the host's plan extents, and its own height. */
  function DrawnSize(plan: Corner -> Vec3, c: Corner): (r: Vec3)
    ensures r.z == c.height
  {
    Vec3(plan(c).x, plan(c).y, c.height)
  }

  /*** The core ***/

  /** How far the core's trace is inset from the base's outline: half the extra thickness of the base. */
  function CoreInset(baseY: real, coreY: real): (r: real)
    ensures r + coreY + r == baseY
  {
    (baseY - coreY) / 2.0
  }

  /** How tall the core is drawn: from the top of the base to the top of the tile. */
  function CoreHeight(tileZ: real, baseZ: real): (r: real)
    ensures baseZ + r == tileZ
  {
    tileZ - baseZ
  }

  /** The triangles of the inset outline the core is traced along. */
  function InsetTriangles(p: LProps, tris: (real, real, real, real) -> Triangles): Triangles
  {
    tris(p.leg1Len, p.leg2Len, CoreInset(p.baseSize.y, p.tileSize.y), p.angle)
  }

  /**
   * The corner prism the core is: the inset legs at the core's own
   * thickness, from the base's top to the tile's top.
   */
  function CoreOutline(p: LProps, tris: (real, real, real, real) -> Triangles): Corner
  {
    var t1 := InsetTriangles(p, tris);
    Corner(tris(t1.bAdj, t1.dAdj, p.tileSize.y, p.angle), p.angle, p.tileSize.y, CoreHeight(p.tileSize.z, p.baseSize.z))
  }

  /**
   * The core of a tile whose wall is as thick as its base is traced along
   * the base's own outline, and a core as tall as the base has no height.
   */
  lemma CoreOutlineOnBase(p: LProps, tris: (real, real, real, real) -> Triangles)
    requires p.tileSize.y == p.baseSize.y
    ensures InsetTriangles(p, tris) == tris(p.leg1Len, p.leg2Len, 0.0, p.angle)
    ensures p.tileSize.z == p.baseSize.z ==> CoreOutline(p, tris).height == 0.0
  {
  }

  /** Where the cursor is put to start the core: the wall start for the inset outline, at the base's height. */
  function CoreStart(cursor: Vec3, p: LProps, tris: (real, real, real, real) -> Triangles,
                     wallStart: (Vec3, Triangles, real, real, real) -> Vec3): Vec3
  {
    wallStart(cursor, InsetTriangles(p, tris), p.angle, CoreInset(p.baseSize.y, p.tileSize.y), p.baseSize.z)
  }

  /**
   * The drawing half of `spawn_wall_core` and `spawn_floor_core`: the cursor
   * goes to the wall start and the core prism is drawn there.
   */
  method DrawCore(scene: Scene, p: LProps, tris: (real, real, real, real) -> Triangles,
                  wallStart: (Vec3, Triangles, real, real, real) -> Vec3, plan: Corner -> Vec3)
    returns (core: Obj)
    modifies scene`cursor
    ensures fresh(core)
    ensures scene.cursor == CoreStart(old(scene.cursor), p, tris, wallStart)
    ensures core.name == p.tileName + ".core" && core.location == scene.cursor && core.Lo() == scene.cursor
    ensures core.size == DrawnSize(plan, CoreOutline(p, tris))
    ensures core.size.z + p.baseSize.z == p.tileSize.z
    ensures core.modifiers == [] && core.cutters == [] && core.parent == "" && !core.hideViewport
  {
    scene.cursor := CoreStart(scene.cursor, p, tris, wallStart);
    var outline := CoreOutline(p, tris);
    core := new Obj(p.tileName + ".core", DrawnSize(plan, outline), scene.cursor);
  }

  /** `origin_set` to a cursor put at the world origin: the geometry stays where it is. */
  method ResetOrigin(scene: Scene, core: Obj)
    modifies scene`cursor, core`location, core`offset
    ensures scene.cursor == Origin && core.location == Origin && core.Lo() == old(core.Lo())
  {
    scene.cursor := Origin;
    core.OriginToCursor(scene.cursor);
  }

  /**
   * The core prism drawn at the wall start, then the cursor put at the world
   * origin and the core's origin moved to it, which leaves the geometry where
   * it was drawn. (The classifier in between touches only the core's mesh.)
   */
  method PlaceCore(scene: Scene, p: LProps, tris: (real, real, real, real) -> Triangles,
                   wallStart: (Vec3, Triangles, real, real, real) -> Vec3, plan: Corner -> Vec3)
    returns (core: Obj)
    modifies scene`cursor
    ensures fresh(core)
    ensures core.name == p.tileName + ".core" && core.size == DrawnSize(plan, CoreOutline(p, tris))
    ensures core.Lo() == CoreStart(old(scene.cursor), p, tris, wallStart)
    ensures core.location == Origin && scene.cursor == Origin
    ensures core.modifiers == [] && core.cutters == [] && !core.hideViewport
  {
    core := DrawCore(scene, p, tris, wallStart, plan);
    ResetOrigin(scene, core);
  }

  /**
   * `spawn_wall_core`: the core prism, its ten vertex groups filled by the
   * wall classifier (with the core's height and the z subdivisions), then
   * the cursor is put at the world origin and the core's origin moved to
   * it, which leaves the geometry where it was drawn.
   */
  method SpawnWallCore(scene: Scene, p: LProps, mesh: CornerZones.EditMesh, vertLocs: map<CornerZones.Zone, seq<Vec3>>,
                       tris: (real, real, real, real) -> Triangles,
                       wallStart: (Vec3, Triangles, real, real, real) -> Vec3, plan: Corner -> Vec3)
    returns (core: Obj)
    requires p.zSubdivisions != 0 && CornerZones.HasRecorded(vertLocs)
    modifies scene`cursor, mesh`selected, mesh`groups, mesh`active
    ensures fresh(core)
    ensures core.name == p.tileName + ".core" && core.size == DrawnSize(plan, CoreOutline(p, tris))
    ensures core.Lo() == CoreStart(old(scene.cursor), p, tris, wallStart)
    ensures core.location == Origin && scene.cursor == Origin
    ensures mesh.groups == CornerZones.WallGroups(mesh.mesh, old(mesh.groups), vertLocs, CoreHeight(p.tileSize.z, p.baseSize.z), p.zSubdivisions)
    ensures core.modifiers == [] && core.cutters == [] && !core.hideViewport
  {
    core := PlaceCore(scene, p, tris, wallStart, plan);
    mesh.CornerWallToVertGroups(vertLocs, CoreHeight(p.tileSize.z, p.baseSize.z), p.zSubdivisions);
  }

  /**
   * `spawn_floor_core`: as for the wall core, with the floor classifier,
   * whose Top groups leave out the side vertices.
   */
  method SpawnFloorCore(scene: Scene, p: LProps, mesh: CornerZones.EditMesh, vertLocs: map<CornerZones.Zone, seq<Vec3>>,
                        tris: (real, real, real, real) -> Triangles,
                        wallStart: (Vec3, Triangles, real, real, real) -> Vec3, plan: Corner -> Vec3)
    returns (core: Obj)
    requires p.zSubdivisions != 0 && CornerZones.HasRecorded(vertLocs)
    modifies scene`cursor, mesh`selected, mesh`groups, mesh`active
    ensures fresh(core)
    ensures core.name == p.tileName + ".core" && core.size == DrawnSize(plan, CoreOutline(p, tris))
    ensures core.Lo() == CoreStart(old(scene.cursor), p, tris, wallStart)
    ensures core.location == Origin && scene.cursor == Origin
    ensures mesh.groups == CornerZones.FloorGroups(mesh.mesh, old(mesh.groups), vertLocs, CoreHeight(p.tileSize.z, p.baseSize.z), p.zSubdivisions)
  {
    core := PlaceCore(scene, p, tris, wallStart, plan);
    mesh.CornerFloorToVertGroups(vertLocs, CoreHeight(p.tileSize.z, p.baseSize.z), p.zSubdivisions);
  }

  /** The vertex groups a wall's displacement core is textured on. */
  const WallTextured: seq<CornerZones.Zone> :=
    [CornerZones.Zone(CornerZones.Leg1, CornerZones.Outer), CornerZones.Zone(CornerZones.Leg1, CornerZones.Inner),
     CornerZones.Zone(CornerZones.Leg2, CornerZones.Outer), CornerZones.Zone(CornerZones.Leg2, CornerZones.Inner)]

  /** The vertex groups a floor's displacement core is textured on. */
  const FloorTextured: seq<CornerZones.Zone> :=
    [CornerZones.Zone(CornerZones.Leg1, CornerZones.Top), CornerZones.Zone(CornerZones.Leg2, CornerZones.Top)]

  /**
   * The textured group names handed to the displacement helper are names of
   * groups the classifiers create: 'Leg 1 Outer', 'Leg 1 Inner', 'Leg 2
   * Outer', 'Leg 2 Inner' for walls and 'Leg 1 Top', 'Leg 2 Top' for floors.
   */
  lemma TexturedGroupsExist()
    ensures forall i :: 0 <= i < |WallTextured| ==> WallTextured[i] in CornerZones.AllZones
    ensures forall i :: 0 <= i < |FloorTextured| ==> FloorTextured[i] in CornerZones.AllZones
    ensures CornerZones.ZoneName(WallTextured[0]) == "Leg 1 Outer" && CornerZones.ZoneName(WallTextured[1]) == "Leg 1 Inner"
    ensures CornerZones.ZoneName(WallTextured[2]) == "Leg 2 Outer" && CornerZones.ZoneName(WallTextured[3]) == "Leg 2 Inner"
    ensures CornerZones.ZoneName(FloorTextured[0]) == "Leg 1 Top" && CornerZones.ZoneName(FloorTextured[1]) == "Leg 2 Top"
  {
  }

  /**
   * `spawn_plain_wall_cores`: the wall core; the displacement copy (made by
   * a helper that is not part of this model) is hidden.
   */
  method SpawnPlainWallCores(scene: Scene, p: LProps, mesh: CornerZones.EditMesh, vertLocs: map<CornerZones.Zone, seq<Vec3>>,
                             tris: (real, real, real, real) -> Triangles,
                             wallStart: (Vec3, Triangles, real, real, real) -> Vec3, plan: Corner -> Vec3, displacement: Obj)
    returns (preview: Obj)
    requires p.zSubdivisions != 0 && CornerZones.HasRecorded(vertLocs)
    modifies scene`cursor, mesh`selected, mesh`groups, mesh`active, displacement`hideViewport
    ensures fresh(preview) && displacement.hideViewport && !preview.hideViewport
    ensures preview.Lo() == CoreStart(old(scene.cursor), p, tris, wallStart)
    ensures mesh.groups == CornerZones.WallGroups(mesh.mesh, old(mesh.groups), vertLocs, CoreHeight(p.tileSize.z, p.baseSize.z), p.zSubdivisions)
  {
    preview := SpawnWallCore(scene, p, mesh, vertLocs, tris, wallStart, plan);
    displacement.hideViewport := true;
  }

  /** `spawn_plain_floor_cores`: the floor core; the displacement copy is hidden. */
  method SpawnPlainFloorCores(scene: Scene, p: LProps, mesh: CornerZones.EditMesh, vertLocs: map<CornerZones.Zone, seq<Vec3>>,
                              tris: (real, real, real, real) -> Triangles,
                              wallStart: (Vec3, Triangles, real, real, real) -> Vec3, plan: Corner -> Vec3, displacement: Obj)
    returns (preview: Obj)
    requires p.zSubdivisions != 0 && CornerZones.HasRecorded(vertLocs)
    modifies scene`cursor, mesh`selected, mesh`groups, mesh`active, displacement`hideViewport
    ensures fresh(preview) && displacement.hideViewport
    ensures preview.Lo() == CoreStart(old(scene.cursor), p, tris, wallStart)
    ensures mesh.groups == CornerZones.FloorGroups(mesh.mesh, old(mesh.groups), vertLocs, CoreHeight(p.tileSize.z, p.baseSize.z), p.zSubdivisions)
  {
    preview := SpawnFloorCore(scene, p, mesh, vertLocs, tris, wallStart, plan);
    displacement.hideViewport := true;
  }

  /*** OpenLOCK side cutters ***/

  /** Where the Leg 2 bottom cutter goes: the leg-1 length along x from the core, on the base's mid-line, 0.63 up. */
  function LegTwoCutterLoc(coreLoc: Vec3, p: LProps): Vec3
  {
    StraightTiles.RightCutterLoc(coreLoc, p.tileSize.(x := p.leg1Len), p.baseSize)
  }

  /**
   * The two bottom cutters are the straight wall's recipe with the leg-1
   * length as the tile's length: on the base's mid-line, 0.63 up, a leg-1
   * length apart in x.
   */
  lemma LegCuttersApart(coreLoc: Vec3, p: LProps)
    ensures var l, r := StraightTiles.LeftCutterLoc(coreLoc, p.baseSize), LegTwoCutterLoc(coreLoc, p);
      r.x - l.x == p.leg1Len && r.y == l.y == coreLoc.y + p.baseSize.y / 2.0 && r.z == l.z == coreLoc.z + 0.63
  {
  }

  /**
   * `spawn_openlock_wall_cutters`: Leg 1 bottom and top at the start of the
   * core, Leg 2 bottom and top a leg-1 length along x and turned 180
   * degrees; each bottom's array is fitted to the tile height less 1, each
   * top is raised 0.75 and fitted to the tile height less 1.8.
   */
  method SpawnOpenlockWallCutters(core: Obj, p: LProps, template: Vec3) returns (cutters: seq<Obj>)
    ensures |cutters| == 4 && forall i :: 0 <= i < 4 ==> fresh(cutters[i])
    ensures Distinct(cutters)
    ensures var n := p.tileName;
      NamesOf(cutters) == ["Leg 1 Bottom." + n, "Leg 1 Top." + n, "Leg 2 Bottom." + n, "Leg 2 Top." + n]
    ensures var l, r := StraightTiles.LeftCutterLoc(core.location, p.baseSize), LegTwoCutterLoc(core.location, p);
      cutters[0].location == l && cutters[1].location == Up(l, 0.75) &&
      cutters[2].location == r && cutters[3].location == Up(r, 0.75)
    ensures cutters[0].rotationZ == 0.0 && cutters[1].rotationZ == 0.0
    ensures cutters[2].rotationZ == 180.0 && cutters[3].rotationZ == 180.0
    ensures var z := p.tileSize.z;
      cutters[0].modifiers == [ArrayMod(z - 1.0)] && cutters[2].modifiers == [ArrayMod(z - 1.0)] &&
      cutters[1].modifiers == [ArrayMod(z - 1.8)] && cutters[3].modifiers == [ArrayMod(z - 1.8)]
    ensures forall i :: 0 <= i < 4 ==> cutters[i].geometryType == Unset && cutters[i].parent == ""
  {
    var n := p.tileName;
    var lb, lt := SpawnSideCutters("Leg 1 Bottom." + n, "Leg 1 Top." + n, template,
                                   StraightTiles.LeftCutterLoc(core.location, p.baseSize), 0.0, p.tileSize.z);
    var rb, rt := SpawnSideCutters("Leg 2 Bottom." + n, "Leg 2 Top." + n, template,
                                   LegTwoCutterLoc(core.location, p), 180.0, p.tileSize.z);
    cutters := [lb, lt, rb, rt];
  }

  /**
   * Where the Leg 1 cutters end up: moved half the base's width along x and
   * (leg-2 length less half the base's width) along y, which puts them a
   * leg-2 length along y from the core, across the far end of leg 2.
   */
  function LegOneFinalLoc(cutterLoc: Vec3, p: LProps): (r: Vec3)
    ensures r.x == cutterLoc.x + p.baseSize.y / 2.0 && r.z == cutterLoc.z
  {
    Vec3(cutterLoc.x + p.baseSize.y / 2.0, cutterLoc.y + p.leg2Len - p.baseSize.y / 2.0, cutterLoc.z)
  }

  /**
   * Where the Leg 2 cutters are before they are turned: their x moves on by
   * the leg-1 length less 2, although it was already a leg-1 length along.
   */
  function LegTwoShifted(cutterLoc: Vec3, p: LProps): Vec3
  {
    cutterLoc.(x := cutterLoc.x + p.leg1Len - 2.0)
  }

  /** The turn applied to the Leg 2 cutters about the cursor, in degrees. */
  function LegTwoTurn(angle: real): real
  {
    -angle + 90.0
  }

  /**
   * For a core whose origin is at the world origin, the Leg 1 bottom cutter
   * ends at (half the base's width, leg-2 length, 0.63): its y offset from
   * the core is exactly the leg-2 length. The Leg 2 bottom cutter, before it
   * is turned, is at twice the leg-1 length less 2 along x.
   */
  lemma FinalCutterPlacement(p: LProps)
    ensures LegOneFinalLoc(StraightTiles.LeftCutterLoc(Origin, p.baseSize), p) == Vec3(p.baseSize.y / 2.0, p.leg2Len, 0.63)
    ensures LegTwoShifted(LegTwoCutterLoc(Origin, p), p) == Vec3(2.0 * p.leg1Len - 2.0, p.baseSize.y / 2.0, 0.63)
  {
  }

  /** A top cutter, 0.75 above its bottom cutter, stays 0.75 above it when both are moved. */
  lemma RaisedCutterMoves(v: Vec3, p: LProps)
    ensures LegOneFinalLoc(Up(v, 0.75), p) == Up(LegOneFinalLoc(v, p), 0.75)
    ensures LegTwoShifted(Up(v, 0.75), p) == Up(LegTwoShifted(v, p), 0.75)
  {
  }

  /** The placement step of `spawn_openlock_wall_cores`, once the four cutters exist. */
  method PlaceWallCutters(scene: Scene, cutters: seq<Obj>, p: LProps, turn: (Vec3, Vec3, real) -> Vec3)
    requires |cutters| == 4 && Distinct(cutters)
    modifies (set c | c in cutters)`location, (set c | c in cutters)`rotationZ
    ensures cutters[0].location == LegOneFinalLoc(old(cutters[0].location), p) && cutters[0].rotationZ == -90.0
    ensures cutters[1].location == LegOneFinalLoc(old(cutters[1].location), p) && cutters[1].rotationZ == -90.0
    ensures cutters[2].location == turn(LegTwoShifted(old(cutters[2].location), p), scene.cursor, LegTwoTurn(p.angle))
    ensures cutters[3].location == turn(LegTwoShifted(old(cutters[3].location), p), scene.cursor, LegTwoTurn(p.angle))
    ensures cutters[2].rotationZ == old(cutters[2].rotationZ) + LegTwoTurn(p.angle)
    ensures cutters[3].rotationZ == old(cutters[3].rotationZ) + LegTwoTurn(p.angle)
    ensures forall i :: 0 <= i < 4 ==> cutters[i].name == old(cutters[i].name) && cutters[i].modifiers == old(cutters[i].modifiers)
  {
    var lb, lt, rb, rt := cutters[0], cutters[1], cutters[2], cutters[3];
    rb.location := LegTwoShifted(rb.location, p);
    rt.location := LegTwoShifted(rt.location, p);
    // transform.rotate of the selection about the cursor
    rb.location := turn(rb.location, scene.cursor, LegTwoTurn(p.angle));
    rb.rotationZ := rb.rotationZ + LegTwoTurn(p.angle);
    rt.location := turn(rt.location, scene.cursor, LegTwoTurn(p.angle));
    rt.rotationZ := rt.rotationZ + LegTwoTurn(p.angle);
    lb.location := LegOneFinalLoc(lb.location, p);
    lb.rotationZ := -90.0;
    lt.location := LegOneFinalLoc(lt.location, p);
    lt.rotationZ := -90.0;
  }

  /**
   * `spawn_openlock_wall_cores`: the wall core, the four side cutters placed
   * on the legs, the displacement copy hidden and the cursor left at the
   * world origin. The renaming meant for the core after the registration
   * loop goes to that loop's last core, the displacement copy, which is
   * given the preview core's name.
   */
  method SpawnOpenlockWallCores(scene: Scene, p: LProps, mesh: CornerZones.EditMesh, vertLocs: map<CornerZones.Zone, seq<Vec3>>,
                                tris: (real, real, real, real) -> Triangles,
                                wallStart: (Vec3, Triangles, real, real, real) -> Vec3, plan: Corner -> Vec3,
                                displacement: Obj, template: Vec3, turn: (Vec3, Vec3, real) -> Vec3,
                                boolFor: string -> Modifier)
    returns (preview: Obj, cutters: seq<Obj>)
    requires p.zSubdivisions != 0 && CornerZones.HasRecorded(vertLocs)
    modifies scene`cursor, mesh`selected, mesh`groups, mesh`active
    modifies displacement`hideViewport, displacement`name, displacement`modifiers
    ensures fresh(preview) && preview != displacement && scene.cursor == Origin
    ensures preview.Lo() == CoreStart(old(scene.cursor), p, tris, wallStart)
    ensures mesh.groups == CornerZones.WallGroups(mesh.mesh, old(mesh.groups), vertLocs, CoreHeight(p.tileSize.z, p.baseSize.z), p.zSubdivisions)
    ensures displacement.name == preview.name == p.tileName + ".core" && displacement.hideViewport
    ensures |cutters| == 4 && forall i :: 0 <= i < 4 ==> fresh(cutters[i])
    ensures LegCuttersPlaced(cutters, p, turn)
    ensures preview.modifiers == BoolsBy(LegCutterNames(p.tileName), boolFor)
    ensures displacement.modifiers == old(displacement.modifiers) + BoolsBy(LegCutterNames(p.tileName), boolFor)
  {
    preview := SpawnWallCore(scene, p, mesh, vertLocs, tris, wallStart, plan);
    cutters := AddLegCutters(scene, preview, p, displacement, template, turn, boolFor);
  }

  /**
   * Where the four side cutters of an L wall whose core's origin is at the
   * world origin end up: the Leg 1 pair across the far end of leg 2 turned
   * -90 degrees, the Leg 2 pair shifted and turned about the world origin.
   */
  ghost predicate LegCuttersPlaced(cutters: seq<Obj>, p: LProps, turn: (Vec3, Vec3, real) -> Vec3)
    requires |cutters| == 4
    reads set c | c in cutters
  {
    var n, l, r, z := p.tileName, Vec3(p.baseSize.y / 2.0, p.leg2Len, 0.63), Vec3(2.0 * p.leg1Len - 2.0, p.baseSize.y / 2.0, 0.63), p.tileSize.z;
    NamesOf(cutters) == LegCutterNames(n) &&
    cutters[0].location == l && cutters[1].location == Up(l, 0.75) &&
    cutters[0].rotationZ == -90.0 && cutters[1].rotationZ == -90.0 &&
    cutters[2].location == turn(r, Origin, LegTwoTurn(p.angle)) &&
    cutters[3].location == turn(Up(r, 0.75), Origin, LegTwoTurn(p.angle)) &&
    cutters[2].rotationZ == 180.0 + LegTwoTurn(p.angle) && cutters[3].rotationZ == 180.0 + LegTwoTurn(p.angle) &&
    cutters[0].modifiers == [ArrayMod(z - 1.0)] && cutters[2].modifiers == [ArrayMod(z - 1.0)] &&
    cutters[1].modifiers == [ArrayMod(z - 1.8)] && cutters[3].modifiers == [ArrayMod(z - 1.8)]
  }

  /** The names of the four side cutters of an L wall, in the order they are made. */
  function LegCutterNames(tileName: string): (r: seq<string>)
    ensures |r| == 4 && forall i, j :: 0 <= i < j < 4 ==> r[i] != r[j]
  {
    var r := ["Leg 1 Bottom." + tileName, "Leg 1 Top." + tileName, "Leg 2 Bottom." + tileName, "Leg 2 Top." + tileName];
    assert r[0][..6] == "Leg 1 " && r[2][..6] == "Leg 2 ";
    assert r[0][..7] == "Leg 1 B" && r[1][..7] == "Leg 1 T" && r[2][..7] == "Leg 2 B" && r[3][..7] == "Leg 2 T";
    r
  }

  /**
   * The end of `spawn_openlock_wall_cores`, once the cutters are placed: the
   * registration loop, in which each cutter's boolean goes on both cores;
   * then the renaming, which lands on the loop's last core, the displacement
   * copy; then that copy is hidden and the cursor goes to the world origin.
   */
  method RegisterLegCutters(scene: Scene, cutters: seq<Obj>, preview: Obj, displacement: Obj, tileName: string,
                            boolFor: string -> Modifier, ghost names: seq<string>)
    requires preview != displacement
    requires |names| == |cutters| && forall i :: 0 <= i < |cutters| ==> cutters[i].name == names[i]
    modifies scene`cursor, preview`modifiers, displacement`modifiers, displacement`name, displacement`hideViewport
    ensures scene.cursor == Origin && displacement.name == tileName + ".core" && displacement.hideViewport
    ensures preview.modifiers == old(preview.modifiers) + BoolsBy(names, boolFor)
    ensures displacement.modifiers == old(displacement.modifiers) + BoolsBy(names, boolFor)
  {
    SetBoolsOnCores(cutters, preview, displacement, boolFor, names);
    displacement.name := tileName + ".core";
    displacement.hideViewport := true;
    scene.cursor := Origin;
  }

  /** The cutter half of `spawn_openlock_wall_cores`, once the core's origin is at the world origin. */
  method AddLegCutters(scene: Scene, core: Obj, p: LProps, displacement: Obj, template: Vec3, turn: (Vec3, Vec3, real) -> Vec3,
                       boolFor: string -> Modifier)
    returns (cutters: seq<Obj>)
    requires core.location == Origin && scene.cursor == Origin && core != displacement
    modifies scene`cursor, displacement`hideViewport, displacement`name, core`modifiers, displacement`modifiers
    ensures scene.cursor == Origin && displacement.name == p.tileName + ".core" && displacement.hideViewport
    ensures |cutters| == 4 && forall i :: 0 <= i < 4 ==> fresh(cutters[i])
    ensures LegCuttersPlaced(cutters, p, turn)
    ensures core.modifiers == old(core.modifiers) + BoolsBy(LegCutterNames(p.tileName), boolFor)
    ensures core.Lo() == old(core.Lo()) && core.name == old(core.name)
    ensures displacement.modifiers == old(displacement.modifiers) + BoolsBy(LegCutterNames(p.tileName), boolFor)
  {
    cutters := SpawnLegCutters(scene, core, p, template, turn);
    ghost var names := LegCutterNames(p.tileName);
    assert forall i :: 0 <= i < 4 ==> cutters[i].name == names[i] && cutters[i] != core && cutters[i] != displacement;
    RegisterLegCutters(scene, cutters, core, displacement, p.tileName, boolFor, names);
  }

  /** The four side cutters spawned at the core and moved onto the legs. */
  method SpawnLegCutters(scene: Scene, core: Obj, p: LProps, template: Vec3, turn: (Vec3, Vec3, real) -> Vec3)
    returns (cutters: seq<Obj>)
    requires core.location == Origin && scene.cursor == Origin
    ensures |cutters| == 4 && forall i :: 0 <= i < 4 ==> fresh(cutters[i])
    ensures LegCuttersPlaced(cutters, p, turn)
  {
    cutters := SpawnOpenlockWallCutters(core, p, template);
    ghost var names := NamesOf(cutters);
    ghost var l, r := StraightTiles.LeftCutterLoc(Origin, p.baseSize), LegTwoCutterLoc(Origin, p);
    assert cutters[0].location == l && cutters[1].location == Up(l, 0.75);
    assert cutters[2].location == r && cutters[3].location == Up(r, 0.75);
    FinalCutterPlacement(p);
    PlaceWallCutters(scene, cutters, p, turn);
    assert NamesOf(cutters) == names;
    RaisedCutterMoves(l, p);
    RaisedCutterMoves(r, p);
  }

  /** The booleans `set_bool_props` gives one target for the named cutters, in order. */
  function BoolsBy(names: seq<string>, boolFor: string -> Modifier): (r: seq<Modifier>)
    ensures |r| == |names| && forall i :: 0 <= i < |names| ==> r[i] == boolFor(names[i])
  {
    seq(|names|, i requires 0 <= i < |names| => boolFor(names[i]))
  }

  /**
   * `set_bool_props(cutter, target, 'DIFFERENCE')`: the target gains, last
   * on its stack, the boolean `boolFor` makes for the cutter's name.
   */
  method SetBoolProps(cutter: Obj, target: Obj, boolFor: string -> Modifier)
    modifies target`modifiers
    ensures target.modifiers == old(target.modifiers) + [boolFor(cutter.name)]
  {
    target.AddModifier(boolFor(cutter.name));
  }

  /**
   * The registration loop of `spawn_openlock_wall_cores`: per cutter, in
   * order, `set_bool_props` on the preview core and then on the
   * displacement core, so both stacks gain one boolean per cutter.
   */
  method SetBoolsOnCores(cutters: seq<Obj>, preview: Obj, displacement: Obj, boolFor: string -> Modifier, ghost names: seq<string>)
    requires preview != displacement
    requires |names| == |cutters| && forall i :: 0 <= i < |cutters| ==> cutters[i].name == names[i]
    modifies preview`modifiers, displacement`modifiers
    ensures preview.modifiers == old(preview.modifiers) + BoolsBy(names, boolFor)
    ensures displacement.modifiers == old(displacement.modifiers) + BoolsBy(names, boolFor)
  {
    var i := 0;
    while i < |cutters|
      invariant 0 <= i <= |cutters|
      invariant preview.modifiers == old(preview.modifiers) + BoolsBy(names[..i], boolFor)
      invariant displacement.modifiers == old(displacement.modifiers) + BoolsBy(names[..i], boolFor)
    {
      SetBoolProps(cutters[i], preview, boolFor);
      SetBoolProps(cutters[i], displacement, boolFor);
      assert BoolsBy(names[..i + 1], boolFor) == BoolsBy(names[..i], boolFor) + [boolFor(names[i])];
      i := i + 1;
    }
    assert names[..i] == names;
  }

  /*** OpenLOCK base ***/

  /** The outline of the base: the full legs at the base's thickness and height. */
  function BaseOutline(p: LProps, tris: (real, real, real, real) -> Triangles): Corner
  {
    Corner(tris(p.leg1Len, p.leg2Len, p.baseSize.y, p.angle), p.angle, p.baseSize.y, p.baseSize.z)
  }

  /** `spawn_plain_base`: the base prism drawn at the cursor, named and typed as the base. */
  method SpawnPlainBase(scene: Scene, p: LProps, tris: (real, real, real, real) -> Triangles, plan: Corner -> Vec3)
    returns (base: Obj)
    ensures fresh(base)
    ensures base.name == p.tileName + ".base" && base.geometryType == Base
    ensures base.location == scene.cursor && base.size == DrawnSize(plan, BaseOutline(p, tris))
    ensures base.modifiers == [] && base.cutters == []
  {
    base := new Obj(p.tileName + ".base", DrawnSize(plan, BaseOutline(p, tris)), scene.cursor);
    base.geometryType := Base;
  }

  /** How far the slot's face is from the base's outer face. */
  const FaceDist: real := 0.233
  /** The slot's width and height. */
  const SlotWidth: real := 0.197
  const SlotHeight: real := 0.25
  /** How far the slot stops short of each end of the base. */
  const EndDist: real := 0.236

  /** The triangles of the slot's face line, inset by the face distance. */
  function SlotFaceTriangles(p: LProps, tris: (real, real, real, real) -> Triangles): Triangles
  {
    tris(p.leg1Len, p.leg2Len, FaceDist, p.angle)
  }

  /** The slot prism: the face line's legs less the end distance, at the slot's width and height. */
  function SlotOutline(p: LProps, tris: (real, real, real, real) -> Triangles): (r: Corner)
    ensures r.thickness == 0.197 && r.height == 0.25 && r.angle == p.angle
  {
    var t1 := SlotFaceTriangles(p, tris);
    Corner(tris(t1.bAdj - EndDist, t1.dAdj - EndDist, SlotWidth, p.angle), p.angle, SlotWidth, SlotHeight)
  }

  /**
   * The slot prism is traced along legs 0.236 shorter than the face line's,
   * so it stops that far short of both ends; its legs are shorter than the
   * face line's by the same amount on both legs.
   */
  lemma SlotStopsShort(p: LProps, tris: (real, real, real, real) -> Triangles)
    ensures var t1 := SlotFaceTriangles(p, tris);
      exists x, y :: SlotOutline(p, tris).tri == tris(x, y, SlotWidth, p.angle) &&
        t1.bAdj - x == EndDist && t1.dAdj - y == EndDist
  {
    var t1 := SlotFaceTriangles(p, tris);
    var x, y := t1.bAdj - EndDist, t1.dAdj - EndDist;
    assert SlotOutline(p, tris).tri == tris(x, y, SlotWidth, p.angle);
  }

  /**
   * `create_openlock_base_slot_cutter`: the cursor goes to the wall start of
   * the face line, 0.01 below the cursor's height, and the slot prism is
   * drawn there.
   */
  method CreateSlotCutter(scene: Scene, p: LProps, tris: (real, real, real, real) -> Triangles,
                          wallStart: (Vec3, Triangles, real, real, real) -> Vec3, plan: Corner -> Vec3)
    returns (slot: Obj)
    modifies scene`cursor
    ensures fresh(slot)
    ensures scene.cursor == wallStart(old(scene.cursor), SlotFaceTriangles(p, tris), p.angle, FaceDist, -0.01)
    ensures slot.name == "Slot." + p.tileName + ".base.cutter" && slot.location == scene.cursor
    ensures slot.size == DrawnSize(plan, SlotOutline(p, tris))
    ensures slot.modifiers == [] && slot.cutters == []
  {
    scene.cursor := wallStart(scene.cursor, SlotFaceTriangles(p, tris), p.angle, FaceDist, -0.01);
    slot := new Obj("Slot." + p.tileName + ".base.cutter", DrawnSize(plan, SlotOutline(p, tris)), scene.cursor);
  }

  /** Where a clip cutter starts: half a unit along x from the corner, `offset` along y. */
  function ClipCutterLoc(corner: Vec3, offset: real): Vec3
  {
    Add(corner, Vec3(0.5, offset, 0.0))
  }

  /**
   * `create_openlock_base_clip_cutter`: the library clip cutter at the clip
   * start, with an array fitted to the leg's length less 1 (its start and
   * end caps are hidden).
   */
  method CreateClipCutter(corner: Vec3, legLen: real, offset: real, clipSize: Vec3, clipName: string) returns (clip: Obj)
    ensures fresh(clip) && clip.name == clipName && clip.size == clipSize && !clip.mirroredY
    ensures clip.location == ClipCutterLoc(corner, offset) && clip.rotationZ == 0.0
    ensures clip.modifiers == [ArrayMod(StraightTiles.ClipFitLength(legLen))]
  {
    clip := new Obj(clipName, clipSize, ClipCutterLoc(corner, offset));
    clip.AddModifier(ArrayMod(StraightTiles.ClipFitLength(legLen)));
  }

  /**
   * `spawn_openlock_base`: the base, the slot cutter, and one clip cutter per
   * leg: Leg 1's along the base triangles' a leg, 0.25 off the corner, turned
   * by 90 degrees less the angle about the corner; Leg 2's along the c leg,
   * -0.25 off the corner, turned 90 degrees about the corner and mirrored
   * along its local y axis. The slot and both clips each put their boolean
   * on the base, in that order. The cursor is left at the world origin.
   */
  method SpawnOpenlockBase(scene: Scene, p: LProps, tris: (real, real, real, real) -> Triangles,
                           wallStart: (Vec3, Triangles, real, real, real) -> Vec3, plan: Corner -> Vec3,
                           clipSize: Vec3, turn: (Vec3, Vec3, real) -> Vec3, boolFor: string -> Modifier)
    returns (base: Obj, slot: Obj, clip1: Obj, clip2: Obj)
    modifies scene`cursor
    ensures fresh(base) && fresh(slot) && fresh(clip1) && fresh(clip2)
    ensures base.name == p.tileName + ".base" && base.location == old(scene.cursor) && base.geometryType == Base
    ensures slot.name == "Slot." + p.tileName + ".base.cutter"
    ensures slot.location == wallStart(old(scene.cursor), SlotFaceTriangles(p, tris), p.angle, FaceDist, -0.01)
    ensures var t := BaseOutline(p, tris).tri;
      clip1.name == "Clip Leg 1." + base.name && clip2.name == "Clip Leg 2." + base.name &&
      clip1.modifiers == [ArrayMod(t.aAdj - 1.0)] && clip2.modifiers == [ArrayMod(t.cAdj - 1.0)]
    ensures clip1.location == turn(ClipCutterLoc(base.location, 0.25), base.location, 90.0 - p.angle)
    ensures clip2.location == turn(ClipCutterLoc(base.location, -0.25), base.location, 90.0)
    ensures clip1.rotationZ == 90.0 - p.angle && clip2.rotationZ == 90.0
    ensures !clip1.mirroredY && clip2.mirroredY
    ensures base.modifiers == [boolFor(slot.name), boolFor(clip1.name), boolFor(clip2.name)]
    ensures scene.cursor == Origin
  {
    base := SpawnPlainBase(scene, p, tris, plan);
    slot := CreateSlotCutter(scene, p, tris, wallStart, plan);
    SetBoolProps(slot, base, boolFor);
    clip1, clip2 := AddClipCutters(base, p, tris, clipSize, turn, boolFor);
    scene.cursor := Origin;
  }

  /**
   * The clip half of `spawn_openlock_base`: Leg 1's clip along the base
   * triangles' a leg, turned by 90 degrees less the angle about the base's
   * corner; Leg 2's along the c leg, turned 90 degrees about the corner and
   * mirrored; then each clip's boolean goes on the base.
   */
  method AddClipCutters(base: Obj, p: LProps, tris: (real, real, real, real) -> Triangles, clipSize: Vec3,
                        turn: (Vec3, Vec3, real) -> Vec3, boolFor: string -> Modifier)
    returns (clip1: Obj, clip2: Obj)
    modifies base`modifiers
    ensures fresh(clip1) && fresh(clip2)
    ensures var t := BaseOutline(p, tris).tri;
      clip1.name == "Clip Leg 1." + base.name && clip2.name == "Clip Leg 2." + base.name &&
      clip1.modifiers == [ArrayMod(t.aAdj - 1.0)] && clip2.modifiers == [ArrayMod(t.cAdj - 1.0)]
    ensures clip1.location == turn(ClipCutterLoc(base.location, 0.25), base.location, 90.0 - p.angle)
    ensures clip2.location == turn(ClipCutterLoc(base.location, -0.25), base.location, 90.0)
    ensures clip1.rotationZ == 90.0 - p.angle && clip2.rotationZ == 90.0
    ensures !clip1.mirroredY && clip2.mirroredY
    ensures base.modifiers == old(base.modifiers) + [boolFor(clip1.name), boolFor(clip2.name)]
    ensures base.name == old(base.name) && base.location == old(base.location)
  {
    var baseTriangles := tris(p.leg1Len, p.leg2Len, p.baseSize.y, p.angle);
    var corner := base.location;
    assert baseTriangles == BaseOutline(p, tris).tri;
    clip1 := TurnedClipCutter(corner, baseTriangles.aAdj, 0.25, clipSize, "Clip Leg 1." + base.name, turn, -p.angle + 90.0);
    clip2 := TurnedClipCutter(corner, baseTriangles.cAdj, -0.25, clipSize, "Clip Leg 2." + base.name, turn, 90.0);
    clip2.MirrorLocalY();
    SetBoolProps(clip1, base, boolFor);
    SetBoolProps(clip2, base, boolFor);
  }

  /** A clip cutter made at the corner and then turned by `degrees` about it. */
  method TurnedClipCutter(corner: Vec3, legLen: real, offset: real, clipSize: Vec3, clipName: string,
                          turn: (Vec3, Vec3, real) -> Vec3, degrees: real)
    returns (clip: Obj)
    ensures fresh(clip) && clip.name == clipName
    ensures clip.location == turn(ClipCutterLoc(corner, offset), corner, degrees) && clip.rotationZ == degrees
    ensures clip.modifiers == [ArrayMod(legLen - 1.0)] && !clip.mirroredY
  {
    clip := CreateClipCutter(corner, legLen, offset, clipSize, clipName);
    clip.location := turn(clip.location, corner, degrees);
    clip.rotationZ := clip.rotationZ + degrees;
  }
}
