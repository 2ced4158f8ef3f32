/**
 * The curved-tile builders (`tile_creation/Curved_Tiles.py`): the core
 * radius rules, the core drawn as a straight cuboid as long as the arc and
 * bent by a modifier, the OpenLOCK base with its ring of clip cutters, and
 * the four OpenLOCK side cutters and their registration on both cores.
 *
 * pi is a parameter (any positive value). Turning an object about a centre
 * (`bpy.ops.transform.rotate` with `center_override`) is the host's
 * trigonometry: it is the parameter `turn`, which maps a location, a centre
 * and an angle in degrees to the turned location.
 */
module CurvedTiles {
  import opened Common
  import opened Objects
  import StraightTiles

  /** The tile properties the curved builders read and overwrite. */
  class TileProps {
    var tileName: string
    var tileSize: Vec3
    var baseSize: Vec3
    var baseRadius: real
    var coreRadius: real
    var degreesOfArc: real
    /** `base_socket_side == 'OUTER'`. */
    var socketOuter: bool

    constructor (tileName: string, tileSize: Vec3, baseSize: Vec3, baseRadius: real, degreesOfArc: real, socketOuter: bool)
      ensures this.tileName == tileName && this.tileSize == tileSize && this.baseSize == baseSize
      ensures this.baseRadius == baseRadius && coreRadius == 0.0 && this.degreesOfArc == degreesOfArc
      ensures this.socketOuter == socketOuter
    {
      this.tileName := tileName;
      this.tileSize := tileSize;
      this.baseSize := baseSize;
      this.baseRadius := baseRadius;
      coreRadius := 0.0;
      this.degreesOfArc := degreesOfArc;
      this.socketOuter := socketOuter;
    }
  }

  /*** Core radius and length ***/

  /**
   * A wall core's radius: the base radius plus the gap that centres the
   * wall's thickness on the base's width.
   */
  function WallCoreRadius(baseRadius: real, baseY: real, tileY: real): (r: real)
    ensures r + tileY / 2.0 == baseRadius + baseY / 2.0
  {
    baseRadius + (baseY - tileY) / 2.0
  }

  /**
   * The length of the straight core that is bent into the arc: the
   * circumference at the core radius divided by the number of such arcs in a
   * full turn, which is the arc length pi * r * arc / 180.
   */
  function WallLength(pi: real, radius: real, arc: real): (r: real)
    requires arc != 0.0
    ensures r == pi * radius * arc / 180.0
  {
    var turns := 360.0 / arc;
    assert turns * arc == 360.0;
    var c := 2.0 * pi * radius;
    assert c / turns == c * arc / 360.0 by {
      assert (c * arc / 360.0) * turns == c;
    }
    c / turns
  }

  /** A full turn makes the core as long as the whole circumference. */
  lemma FullTurnLength(pi: real, radius: real)
    ensures WallLength(pi, radius, 360.0) == 2.0 * pi * radius
  {
  }

  /*** The core ***/

  /** Where `spawn_core` puts the core, for a core drawn at `cursor`. */
  function CoreLoc(cursor: Vec3, radius: real, baseZ: real): Vec3
  {
    Add(cursor, Vec3(0.0, radius, baseZ))
  }

  /** The bend that curls the straight core round the arc; off for render so the bake sees it straight. */
  function BendMod(arc: real): Modifier
  {
    Modifier("Simple_Deform", Bend(-arc), true, false)
  }

  /**
   * `spawn_core`: a straight core as long as the arc at the core radius, as
   * thick as the tile and as tall as the tile less the base, moved out by
   * the radius and up onto the base, with the bend modifier; the tile's
   * x size is overwritten with the core's length.
   */
  method SpawnCore(scene: Scene, props: TileProps, pi: real) returns (core: Obj)
    requires props.degreesOfArc != 0.0
    modifies props`tileSize
    ensures fresh(core)
    ensures props.tileSize == old(props.tileSize).(x := WallLength(pi, props.coreRadius, props.degreesOfArc))
    ensures core.name == props.tileName + ".core"
    ensures core.size == Vec3(WallLength(pi, props.coreRadius, props.degreesOfArc), props.tileSize.y, props.tileSize.z - props.baseSize.z)
    ensures core.location == CoreLoc(scene.cursor, props.coreRadius, props.baseSize.z)
    ensures core.modifiers == [BendMod(props.degreesOfArc)] && core.cutters == [] && core.parent == ""
  {
    var angle := props.degreesOfArc;
    var radius := props.coreRadius;
    var height := props.tileSize.z - props.baseSize.z;
    var wallLength := WallLength(pi, radius, angle);
    core := new Obj(props.tileName + ".core", Vec3(wallLength, props.tileSize.y, height), scene.cursor);
    core.OriginToCursor(scene.cursor);
    props.tileSize := props.tileSize.(x := wallLength);
    core.location := Vec3(core.location.x, core.location.y + radius, core.location.z + props.baseSize.z);
    core.AddModifier(BendMod(angle));
  }

  /**
   * `spawn_plain_wall_cores`: the core radius is set by the wall rule, the
   * core is spawned and its vertices sorted into side groups, and the
   * displacement copy (`displacement`, made by a helper that is not part of
   * this model) is hidden.
   */
  method SpawnPlainWallCores(scene: Scene, props: TileProps, pi: real, mesh: StraightTiles.VertexData, displacement: Obj)
    returns (preview: Obj)
    requires props.degreesOfArc != 0.0
    modifies props`coreRadius, props`tileSize, scene`cursor, mesh`selected, mesh`groups, displacement`hideViewport
    ensures fresh(preview) && scene.cursor == old(scene.cursor)
    ensures props.coreRadius == WallCoreRadius(props.baseRadius, props.baseSize.y, old(props.tileSize.y))
    ensures preview.location == CoreLoc(scene.cursor, props.coreRadius, props.baseSize.z)
    ensures mesh.groups == StraightTiles.BoxGroups(old(mesh.groups), old(mesh.selected), mesh.verts, preview.size)
    ensures displacement.hideViewport
  {
    preview := SpawnWallCore(scene, props, pi, mesh);
    displacement.hideViewport := true;
  }

  /** The steps both wall-core builders share: radius rule, core, side groups. */
  method SpawnWallCore(scene: Scene, props: TileProps, pi: real, mesh: StraightTiles.VertexData) returns (preview: Obj)
    requires props.degreesOfArc != 0.0
    modifies props`coreRadius, props`tileSize, scene`cursor, mesh`selected, mesh`groups
    ensures fresh(preview) && scene.cursor == old(scene.cursor)
    ensures props.coreRadius == WallCoreRadius(props.baseRadius, props.baseSize.y, old(props.tileSize.y))
    ensures preview.location == CoreLoc(scene.cursor, props.coreRadius, props.baseSize.z)
    ensures preview.modifiers == [BendMod(props.degreesOfArc)] && preview.cutters == []
    ensures mesh.groups == StraightTiles.BoxGroups(old(mesh.groups), old(mesh.selected), mesh.verts, preview.size)
  {
    props.coreRadius := WallCoreRadius(props.baseRadius, props.baseSize.y, props.tileSize.y);
    preview := SpawnCore(scene, props, pi);
    StraightTiles.StraightWallToVertGroups(scene, preview, mesh);
  }

  /**
   * `spawn_plain_floor_cores`: a floor core has the base's own radius; the
   * floor's vertex groups come from a helper that is not part of this model.
   */
  method SpawnPlainFloorCores(scene: Scene, props: TileProps, pi: real, displacement: Obj) returns (preview: Obj)
    requires props.degreesOfArc != 0.0
    modifies props`coreRadius, props`tileSize, displacement`hideViewport
    ensures fresh(preview)
    ensures props.coreRadius == props.baseRadius
    ensures preview.location == CoreLoc(scene.cursor, props.baseRadius, props.baseSize.z)
    ensures displacement.hideViewport
  {
    props.coreRadius := props.baseRadius;
    preview := SpawnCore(scene, props, pi);
    displacement.hideViewport := true;
  }

  /*** OpenLOCK side cutters ***/

  /** Where the bottom-left side cutter goes: on the wall's mid-line, 0.63 above the base's bottom. */
  function LeftCutterLoc(coreLoc: Vec3, tileSize: Vec3, baseSize: Vec3): Vec3
  {
    Vec3(coreLoc.x, coreLoc.y + tileSize.y / 2.0, coreLoc.z + 0.63 - baseSize.z)
  }

  /**
   * The left cutters of a core spawned at the cursor sit 0.63 above the
   * cursor, the height the straight wall uses, and on the mid-line of the
   * wall's thickness.
   */
  lemma LeftCutterHeight(cursor: Vec3, radius: real, tileSize: Vec3, baseSize: Vec3)
    ensures var l := LeftCutterLoc(CoreLoc(cursor, radius, baseSize.z), tileSize, baseSize);
      l.z == StraightTiles.LeftCutterLoc(cursor, baseSize).z &&
      l.y == cursor.y + radius + tileSize.y / 2.0 && l.x == cursor.x
  {
  }

  /**
   * `spawn_openlock_wall_cutters`: the left pair at the start of the core;
   * the right bottom cutter is a copy of the left one turned 180 degrees and
   * then turned by minus the arc about the base's location; the right top is
   * a copy of that raised 0.75 with its array refitted.
   */
  method SpawnWallCutters(core: Obj, baseLoc: Vec3, props: TileProps, template: Vec3, turn: (Vec3, Vec3, real) -> Vec3)
    returns (cutters: seq<Obj>)
    ensures |cutters| == 4 && forall i :: 0 <= i < 4 ==> fresh(cutters[i])
    ensures Distinct(cutters)
    ensures var n := props.tileName;
      NamesOf(cutters) == ["X Neg Bottom." + n, "X Neg Top." + n, "X Pos Bottom." + n, "X Pos Top." + n]
    ensures var l := LeftCutterLoc(core.location, props.tileSize, props.baseSize);
      cutters[0].location == l && cutters[1].location == Up(l, 0.75) &&
      cutters[2].location == turn(l, baseLoc, -props.degreesOfArc) &&
      cutters[3].location == Up(turn(l, baseLoc, -props.degreesOfArc), 0.75)
    ensures cutters[0].rotationZ == 0.0 && cutters[1].rotationZ == 0.0
    ensures cutters[2].rotationZ == 180.0 - props.degreesOfArc && cutters[3].rotationZ == 180.0 - props.degreesOfArc
    ensures var z := props.tileSize.z;
      cutters[0].modifiers == [ArrayMod(z - 1.0)] && cutters[2].modifiers == [ArrayMod(z - 1.0)] &&
      cutters[1].modifiers == [ArrayMod(z - 1.8)] && cutters[3].modifiers == [ArrayMod(z - 1.8)]
    ensures forall i :: 0 <= i < 4 ==> cutters[i].geometryType == Unset
  {
    var tileName := props.tileName;
    var lb, lt := SpawnSideCutters("X Neg Bottom." + tileName, "X Neg Top." + tileName, template,
                                   LeftCutterLoc(core.location, props.tileSize, props.baseSize), 0.0, props.tileSize.z);
    var rb, rt := SpawnRightCutters(lb, baseLoc, tileName, props.degreesOfArc, props.tileSize.z, turn);
    cutters := [lb, lt, rb, rt];
  }

  /** The right pair of `spawn_openlock_wall_cutters`, copied from the left bottom cutter. */
  method SpawnRightCutters(lb: Obj, baseLoc: Vec3, tileName: string, arc: real, tileZ: real,
                           turn: (Vec3, Vec3, real) -> Vec3)
    returns (rb: Obj, rt: Obj)
    ensures fresh(rb) && fresh(rt) && rb != rt
    ensures rb.name == "X Pos Bottom." + tileName && rt.name == "X Pos Top." + tileName
    ensures rb.location == turn(lb.location, baseLoc, -arc) && rt.location == Up(rb.location, 0.75)
    ensures rb.rotationZ == 180.0 - arc && rt.rotationZ == 180.0 - arc
    ensures rb.modifiers == lb.modifiers && rb.geometryType == lb.geometryType && rt.geometryType == lb.geometryType
    ensures rt.modifiers == if FindModifier(lb.modifiers, "Array").Some?
      then lb.modifiers[FindModifier(lb.modifiers, "Array").value := lb.modifiers[FindModifier(lb.modifiers, "Array").value].(kind := ArrayFit(tileZ - 1.8))]
      else lb.modifiers
  {
    rb := lb.Copy();
    rb.rotationZ := 180.0;
    rb.name := "X Pos Bottom." + tileName;
    // transform.rotate about the base location
    rb.location := turn(rb.location, baseLoc, -arc);
    rb.rotationZ := rb.rotationZ - arc;
    rt := rb.Copy();
    rt.name := "X Pos Top." + tileName;
    rt.location := Up(rt.location, 0.75);
    var found := rt.SetFitLength("Array", tileZ - 1.8);
  }

  /**
   * `spawn_openlock_wall_cores`: as for plain walls, plus the four side
   * cutters, each parented to the base, drawn as wire and hidden, and
   * registered on both cores as a DIFFERENCE boolean named cutter name +
   * '.bool' with render off and a collection entry in use. The cutters'
   * geometry type is assigned to a misspelt property, so it stays unset.
   */
  method SpawnOpenlockWallCores(scene: Scene, base: Obj, props: TileProps, pi: real, mesh: StraightTiles.VertexData,
                                displacement: Obj, template: Vec3, turn: (Vec3, Vec3, real) -> Vec3)
    returns (preview: Obj, cutters: seq<Obj>)
    requires props.degreesOfArc != 0.0
    modifies props`coreRadius, props`tileSize, scene`cursor, mesh`selected, mesh`groups
    modifies displacement`modifiers, displacement`cutters, displacement`hideViewport
    ensures fresh(preview) && preview != displacement && scene.cursor == old(scene.cursor)
    ensures props.coreRadius == WallCoreRadius(props.baseRadius, props.baseSize.y, old(props.tileSize.y))
    ensures mesh.groups == StraightTiles.BoxGroups(old(mesh.groups), old(mesh.selected), mesh.verts, preview.size)
    ensures |cutters| == 4 && forall j :: 0 <= j < 4 ==> fresh(cutters[j])
    ensures forall j :: 0 <= j < 4 ==>
      cutters[j].parent == base.name && cutters[j].display == Wire && cutters[j].hideViewport && cutters[j].geometryType == Unset
    ensures var names := NamesOf(cutters);
      preview.modifiers == [BendMod(props.degreesOfArc)] + CutterBools(names, true) &&
      preview.cutters == CutterItems(names, preview.name) &&
      displacement.modifiers == old(displacement.modifiers) + CutterBools(names, true) &&
      displacement.cutters == old(displacement.cutters) + CutterItems(names, displacement.name)
    ensures displacement.hideViewport
  {
    preview := SpawnWallCore(scene, props, pi, mesh);
    cutters := AddWallCutters(base, preview, displacement, props, template, turn);
  }

  /** The cutter half of `spawn_openlock_wall_cores`, once the preview core exists. */
  method AddWallCutters(base: Obj, preview: Obj, displacement: Obj, props: TileProps, template: Vec3,
                        turn: (Vec3, Vec3, real) -> Vec3)
    returns (cutters: seq<Obj>)
    requires preview != displacement
    modifies preview`modifiers, preview`cutters
    modifies displacement`modifiers, displacement`cutters, displacement`hideViewport
    ensures |cutters| == 4 && forall j :: 0 <= j < 4 ==> fresh(cutters[j])
    ensures forall j :: 0 <= j < 4 ==>
      cutters[j].parent == base.name && cutters[j].display == Wire && cutters[j].hideViewport && cutters[j].geometryType == Unset
    ensures var names := NamesOf(cutters);
      preview.modifiers == old(preview.modifiers) + CutterBools(names, true) &&
      preview.cutters == old(preview.cutters) + CutterItems(names, preview.name) &&
      displacement.modifiers == old(displacement.modifiers) + CutterBools(names, true) &&
      displacement.cutters == old(displacement.cutters) + CutterItems(names, displacement.name)
    ensures displacement.hideViewport
  {
    cutters := SpawnWallCutters(preview, base.location, props, template, turn);
    RegisterOnCoresAndHide(cutters, preview, displacement, base.name, Wire, true, false);
  }

  /*** OpenLOCK base and clip cutters ***/

  /** Python's `math.modf(x)[1]`: the integer part, rounded toward zero. */
  function Trunc(x: real): (r: int)
    ensures x >= 0.0 ==> r as real <= x < r as real + 1.0
    ensures x < 0.0 ==> r as real - 1.0 < x <= r as real
  {
    if x >= 0.0 then x.Floor else -((-x).Floor)
  }

  /** Clips are spaced 22.5 degrees apart. */
  const ClipStep: real := 22.5

  /** How many clips the ring has: the whole number of steps left after the first. */
  function ClipCount(arc: real): int
  {
    Trunc((arc - ClipStep) / ClipStep)
  }

  /** Where the first clip is turned to: the middle of the arc for a single clip. */
  function InitialRot(arc: real): real
  {
    if ClipCount(arc) == 1 then -arc / 2.0 else -ClipStep
  }

  /** The angle of clip `k`: the array turns each copy one step further. */
  function ClipAngle(arc: real, k: nat): real
  {
    InitialRot(arc) - k as real * ClipStep
  }

  /**
   * Every clip of the ring lies inside the arc, at least one step away from
   * both of its ends.
   */
  lemma ClipsInsideArc(arc: real, k: nat)
    requires k < ClipCount(arc)
    ensures -arc + ClipStep <= ClipAngle(arc, k) <= -ClipStep
  {
    var n := ClipCount(arc);
    var x := (arc - ClipStep) / ClipStep;
    assert x >= 1.0;
    assert n as real <= x;
    assert n as real * ClipStep <= arc - ClipStep;
    if n == 1 {
      assert arc >= 2.0 * ClipStep;
    } else {
      assert k as real <= n as real - 1.0;
    }
  }

  /** Arcs shorter than two steps get no clip at all. */
  lemma ShortArcNoClips(arc: real)
    requires arc < 2.0 * ClipStep
    ensures ClipCount(arc) <= 0
  {
  }

  /** The clip's distance from the centre: the middle of the base's width. */
  function ClipRadius(baseRadius: real, baseY: real): real
  {
    baseRadius + baseY / 2.0
  }

  /** The placement steps of `spawn_openlock_base_clip_cutter`, about the cursor location `centre`. */
  method PlaceClip(centre: Vec3, props: TileProps, libLoc: Vec3, clipSize: Vec3, turn: (Vec3, Vec3, real) -> Vec3)
    returns (clip: Obj, meshTurn: real)
    ensures fresh(clip)
    ensures meshTurn == (if props.socketOuter then 180.0 else 0.0) + InitialRot(props.degreesOfArc)
    ensures clip.location == turn(libLoc.(y := ClipRadius(props.baseRadius, props.baseSize.y)), centre, InitialRot(props.degreesOfArc))
    ensures clip.rotationZ == 0.0
    ensures clip.modifiers == [Modifier("Array", CircleArray(ClipCount(props.degreesOfArc) as real, -ClipStep), true, true)]
  {
    clip := new Obj("openlock.wall.base.cutter.clip_single", clipSize, libLoc);
    var radius := ClipRadius(props.baseRadius, props.baseSize.y);
    clip.location := clip.location.(y := radius);
    if props.socketOuter {
      clip.rotationZ := 180.0;
    }
    var initialRot := InitialRot(props.degreesOfArc);
    clip.location := turn(clip.location, centre, initialRot);
    clip.rotationZ := clip.rotationZ + initialRot;
    // transform_apply(rotation=True): the rotation moves into the mesh
    meshTurn := clip.rotationZ;
    clip.rotationZ := 0.0;
    clip.AddModifier(Modifier("Array", CircleArray(ClipCount(props.degreesOfArc) as real, -ClipStep), true, true));
  }

  /**
   * `spawn_openlock_base_clip_cutter`: the library clip (at `libLoc`) moved
   * out to the middle of the base's width, turned 180 degrees for an outer
   * socket, turned about the cursor to the first clip's angle (the turn,
   * `meshTurn`, is then applied to the mesh, so the object keeps no rotation
   * of its own),
   * and repeated round the ring by a circle array whose centre empty
   * (`empty`) is parented to the base and hidden. The clip is renamed after
   * the base, parented, drawn as wire, hidden and marked as a cutter, and
   * the base gets its DIFFERENCE boolean with render off and a collection
   * entry in use.
   */
  method SpawnClipCutter(scene: Scene, base: Obj, props: TileProps, libLoc: Vec3, clipSize: Vec3, emptyName: string,
                         turn: (Vec3, Vec3, real) -> Vec3)
    returns (clip: Obj, empty: Obj, meshTurn: real)
    modifies base`modifiers, base`cutters
    ensures fresh(clip) && fresh(empty)
    ensures meshTurn == (if props.socketOuter then 180.0 else 0.0) + InitialRot(props.degreesOfArc)
    ensures clip.name == "Clip." + base.name
    ensures clip.location == turn(libLoc.(y := ClipRadius(props.baseRadius, props.baseSize.y)), scene.cursor, InitialRot(props.degreesOfArc))
    ensures clip.rotationZ == 0.0
    ensures clip.modifiers == [Modifier("Array", CircleArray(ClipCount(props.degreesOfArc) as real, -ClipStep), true, true)]
    ensures clip.parent == base.name && clip.display == Wire && clip.hideViewport && clip.geometryType == Cutter
    ensures empty.parent == base.name && empty.hideViewport
    ensures base.modifiers == old(base.modifiers) + [CutterBool(clip.name, true)]
    ensures base.cutters == old(base.cutters) + [CutterItem(clip.name, true, base.name)]
  {
    var cursorOrigLoc := scene.cursor;
    clip, meshTurn := PlaceClip(cursorOrigLoc, props, libLoc, clipSize, turn);
    empty := new Obj(emptyName, Origin, cursorOrigLoc);
    empty.parent := base.name;
    empty.hideViewport := true;
    clip.parent := base.name;
    clip.name := "Clip." + base.name;
    clip.display := Wire;
    clip.hideViewport := true;
    clip.geometryType := Cutter;
    base.AddModifier(CutterBool(clip.name, true));
    base.AddCutterItem(CutterItem(clip.name, true, base.name));
  }

  /**
   * `spawn_openlock_base`: the base's width and height are forced to the
   * OpenLOCK values before the base (drawn by a helper that is not part of
   * this model) is named, marked and given its clip ring.
   */
  method SpawnOpenlockBase(scene: Scene, props: TileProps, libLoc: Vec3, clipSize: Vec3, emptyName: string,
                           turn: (Vec3, Vec3, real) -> Vec3)
    returns (base: Obj, clip: Obj)
    modifies props`baseSize
    ensures props.baseSize == old(props.baseSize).(y := 0.5, z := 0.2755)
    ensures fresh(base) && fresh(clip)
    ensures base.name == props.tileName + ".base" && base.geometryType == Base
    ensures clip.location == turn(libLoc.(y := ClipRadius(props.baseRadius, 0.5)), scene.cursor, InitialRot(props.degreesOfArc))
    ensures base.modifiers == [CutterBool(clip.name, true)] && base.cutters == [CutterItem(clip.name, true, base.name)]
  {
    props.baseSize := props.baseSize.(z := 0.2755);
    props.baseSize := props.baseSize.(y := 0.5);
    base := new Obj(props.tileName + ".base", props.baseSize, scene.cursor);
    base.geometryType := Base;
    var empty, meshTurn;
    clip, empty, meshTurn := SpawnClipCutter(scene, base, props, libLoc, clipSize, emptyName, turn);
  }
}
