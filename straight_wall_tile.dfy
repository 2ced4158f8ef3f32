/**
 * The straight wall tile builder (`tile_creation/create_straight_wall_tile.py`):
 * a base chosen by the base blueprint (OpenLOCK, plain or none), cores chosen
 * by the main-part blueprint (OpenLOCK or plain), the OpenLOCK base's slot
 * and clip cutters and the OpenLOCK side cutters registered on both cores.
 *
 * Unlike the older builders in `Straight_Tiles.py`, everything here is
 * centred on the cursor in x and y: a cuboid is drawn with its first corner
 * at the cursor, moved back by half its size, and its origin is then reset
 * to the cursor (`Obj.OriginToCursor`).
 */
module StraightWallTile {
  import opened Common
  import opened Objects
  import StraightTiles

  /*** Placement arithmetic ***/

  /** Where a cuboid of `size` starts when it is centred on `cursor` in x and y and stands on it. */
  function CentredLo(cursor: Vec3, size: Vec3): (r: Vec3)
    ensures r.x + size.x / 2.0 == cursor.x && r.y + size.y / 2.0 == cursor.y && r.z == cursor.z
  {
    Vec3(cursor.x - size.x / 2.0, cursor.y - size.y / 2.0, cursor.z)
  }

  /** The OpenLOCK base is as long as the tile, 0.5 deep and 0.2755 tall. */
  function OpenlockBaseSize(tileX: real): Vec3
  {
    Vec3(tileX, 0.5, 0.2755)
  }

  /** The OpenLOCK core is 0.3149 thick whatever tile y the scene asks for. */
  function OpenlockCoreSize(tileSize: Vec3): Vec3
  {
    Vec3(tileSize.x, 0.3149, tileSize.z)
  }

  /** The slot cutter: the base length less 0.236 at each end, 0.197 deep and 0.25 tall. */
  function SlotSize(baseX: real): (r: Vec3)
    ensures r.x == baseX - 2.0 * StraightTiles.SlotMargin && r.y == 0.197 && r.z == 0.25
  {
    Vec3(baseX - 0.236 * 2.0, 0.197, 0.25)
  }

  /** Where the slot cutter's geometry starts, for a base whose origin is at `baseLoc`. */
  function SlotLo(baseLoc: Vec3, baseX: real, offset: real): Vec3
  {
    Vec3(baseLoc.x - SlotSize(baseX).x / 2.0, baseLoc.y - offset, baseLoc.z - 0.001)
  }

  /** The offset `create_openlock_base` passes to the slot cutter (the parameter's default is 0.18). */
  const SlotOffset: real := 0.018

  /**
   * On an OpenLOCK base centred on the cursor, the slot stops 0.236 short of
   * both ends of the base, lies inside the base's depth, starts 0.001 below
   * the base's bottom and stops below the base's top, so it opens the
   * underside without cutting through.
   */
  lemma SlotInsideOpenlockBase(cursor: Vec3, tileX: real)
    requires tileX >= 2.0 * StraightTiles.SlotMargin
    ensures var bs := OpenlockBaseSize(tileX);
      var baseLo, lo, size := CentredLo(cursor, bs), SlotLo(cursor, tileX, SlotOffset), SlotSize(tileX);
      lo.x == baseLo.x + StraightTiles.SlotMargin && lo.x + size.x == baseLo.x + bs.x - StraightTiles.SlotMargin &&
      baseLo.y < lo.y && lo.y + size.y < baseLo.y + bs.y &&
      lo.z == baseLo.z - 0.001 && baseLo.z < lo.z + size.z < baseLo.z + bs.z
  {
  }

  /** Where the clip cutter goes, for a base whose origin is at `baseLoc`. */
  function ClipLoc(baseLoc: Vec3, baseSize: Vec3): Vec3
  {
    Vec3(baseLoc.x - baseSize.x / 2.0 + 0.5, baseLoc.y - baseSize.y / 2.0 + 0.25, baseLoc.z)
  }

  /**
   * On a base centred on the cursor, the clip array starts half a unit in
   * from the base's start and its fitted length ends half a unit short of the
   * base's end; on an OpenLOCK base it runs along the base's centre line.
   */
  lemma ClipAlongBase(cursor: Vec3, baseSize: Vec3)
    ensures var lo, c := CentredLo(cursor, baseSize), ClipLoc(cursor, baseSize);
      c.x == lo.x + 0.5 && (lo.x + baseSize.x) - (c.x + StraightTiles.ClipFitLength(baseSize.x)) == 0.5 &&
      c.y == lo.y + 0.25 && c.z == lo.z
    ensures baseSize.y == 0.5 ==> ClipLoc(cursor, baseSize).y == cursor.y
  {
  }

  /** The core is the tile's size less the base's height. */
  function CoreSize(tileSize: Vec3, baseSize: Vec3): Vec3
  {
    Vec3(tileSize.x, tileSize.y, tileSize.z - baseSize.z)
  }

  /** Where the core's geometry starts: centred on the cursor and raised by the base's height. */
  function CoreLo(cursor: Vec3, tileSize: Vec3, baseSize: Vec3): Vec3
  {
    Up(CentredLo(cursor, tileSize), baseSize.z)
  }

  /**
   * The core is centred on the cursor in x and y, its bottom is the top of a
   * base drawn at the same cursor, and its top is the tile's height above
   * the cursor; on an OpenLOCK base it spans the base's whole length.
   */
  lemma CoreOnBase(cursor: Vec3, tileSize: Vec3, baseSize: Vec3)
    ensures var lo, size := CoreLo(cursor, tileSize, baseSize), CoreSize(tileSize, baseSize);
      lo.x + size.x / 2.0 == cursor.x && lo.y + size.y / 2.0 == cursor.y &&
      lo.z == CentredLo(cursor, baseSize).z + baseSize.z && lo.z + size.z == cursor.z + tileSize.z
    ensures baseSize == OpenlockBaseSize(tileSize.x) ==>
      CoreLo(cursor, tileSize, baseSize).x == CentredLo(cursor, baseSize).x
  {
  }

  /** Where the bottom-left side cutter goes, for a core of `tileSize` whose origin is at `coreLoc`. */
  function LeftCutterLoc(coreLoc: Vec3, tileSize: Vec3): Vec3
  {
    var frontLeft := Vec3(coreLoc.x - tileSize.x / 2.0, coreLoc.y - tileSize.y / 2.0, coreLoc.z);
    Vec3(frontLeft.x, frontLeft.y + tileSize.y / 2.0, frontLeft.z + 0.63)
  }

  /** Where the bottom-right side cutter goes. */
  function RightCutterLoc(coreLoc: Vec3, tileSize: Vec3): Vec3
  {
    var frontRight := Vec3(coreLoc.x + tileSize.x / 2.0, coreLoc.y - tileSize.y / 2.0, coreLoc.z);
    Vec3(frontRight.x, frontRight.y + tileSize.y / 2.0, frontRight.z + 0.63)
  }

  /**
   * For a core made at the cursor, the bottom side cutters sit at the core's
   * two x ends, on its y mid-plane, 0.63 above the cursor, symmetric about
   * the cursor.
   */
  lemma SideCuttersAtCoreEnds(cursor: Vec3, tileSize: Vec3, baseSize: Vec3)
    ensures var lo, size := CoreLo(cursor, tileSize, baseSize), CoreSize(tileSize, baseSize);
      var l, r := LeftCutterLoc(cursor, tileSize), RightCutterLoc(cursor, tileSize);
      l.x == lo.x && r.x == lo.x + size.x && (l.x + r.x) / 2.0 == cursor.x &&
      l.y == lo.y + size.y / 2.0 && r.y == l.y && l.z == cursor.z + 0.63 && r.z == l.z
  {
  }

  /*** Bases ***/

  /** `create_plain_base`: a cuboid of the base size centred on the cursor, standing on it. */
  method CreatePlainBase(scene: Scene, tileName: string, baseSize: Vec3) returns (base: Obj)
    ensures fresh(base)
    ensures base.name == tileName + ".base" && base.size == baseSize
    ensures base.location == scene.cursor && base.Lo() == CentredLo(scene.cursor, baseSize)
    ensures base.modifiers == [] && base.cutters == [] && base.parent == "" && base.geometryType == Base
  {
    var cursorStart := scene.cursor;
    base := new Obj(tileName + ".base", baseSize, scene.cursor);
    base.location := Vec3(cursorStart.x - baseSize.x / 2.0, cursorStart.y - baseSize.y / 2.0, cursorStart.z);
    base.OriginToCursor(scene.cursor);
    base.geometryType := Base;
  }

  /**
   * `create_openlock_base_slot_cutter`: the slot cutter moved under the base
   * and centred on it; the base gets a DIFFERENCE boolean named after the
   * cutter, and the cutter is parented to the base, shown as bounds and
   * marked as a cutter (it stays visible).
   */
  method CreateSlotCutter(scene: Scene, base: Obj, tileName: string, baseSize: Vec3, offset: real) returns (cutter: Obj)
    modifies base`modifiers
    ensures fresh(cutter)
    ensures cutter.name == tileName + ".slot_cutter" && cutter.size == SlotSize(baseSize.x)
    ensures cutter.Lo() == SlotLo(old(base.location), baseSize.x, offset) && cutter.location == scene.cursor
    ensures base.modifiers == old(base.modifiers) + [Modifier(cutter.name, Boolean(Difference, cutter.name), true, true)]
    ensures cutter.parent == base.name && cutter.display == Bounds && !cutter.hideViewport && cutter.geometryType == Cutter
  {
    var baseLocation := base.location;
    var boolSize := SlotSize(baseSize.x);
    cutter := new Obj(tileName + ".slot_cutter", boolSize, scene.cursor);
    cutter.location := Vec3(baseLocation.x - boolSize.x / 2.0, baseLocation.y - offset, baseLocation.z - 0.001);
    cutter.OriginToCursor(scene.cursor);
    base.AddModifier(Modifier(cutter.name, Boolean(Difference, cutter.name), true, true));
    cutter.parent := base.name;
    cutter.display := Bounds;
    cutter.geometryType := Cutter;
  }

  /**
   * `create_openlock_base_clip_cutter`: the library clip cutter (geometry
   * `clipSize`, name `clipName`) placed half a unit in from the base's start,
   * with an array fitted to the base length less one.
   */
  method CreateClipCutter(base: Obj, clipName: string, clipSize: Vec3, baseSize: Vec3) returns (clip: Obj)
    ensures fresh(clip)
    ensures clip.name == clipName && clip.size == clipSize
    ensures clip.location == ClipLoc(base.location, baseSize)
    ensures clip.modifiers == [ArrayMod(StraightTiles.ClipFitLength(baseSize.x))]
    ensures clip.parent == "" && !clip.hideViewport && clip.geometryType == Unset
  {
    var baseLocation := base.location;
    clip := new Obj(clipName, clipSize, baseLocation);
    clip.location := Vec3(baseLocation.x - baseSize.x / 2.0 + 0.5, baseLocation.y - baseSize.y / 2.0 + 0.25, baseLocation.z);
    clip.AddModifier(ArrayMod(baseSize.x - 1.0));
  }

  /**
   * `create_openlock_base`: a plain base with the slot cutter at offset
   * 0.018 and, when the base is at least one unit long, the clip cutter,
   * applied by a DIFFERENCE boolean named after the clip, parented, shown as
   * bounds and hidden.
   */
  method CreateOpenlockBase(scene: Scene, tileName: string, baseSize: Vec3, clipName: string, clipSize: Vec3)
    returns (base: Obj, slot: Obj, clip: Option<Obj>)
    ensures fresh(base) && fresh(slot) && base.name == tileName + ".base" && base.size == baseSize
    ensures base.location == scene.cursor && base.Lo() == CentredLo(scene.cursor, baseSize) && base.geometryType == Base
    ensures base.cutters == [] && base.parent == ""
    ensures slot.Lo() == SlotLo(scene.cursor, baseSize.x, SlotOffset) && slot.size == SlotSize(baseSize.x)
    ensures slot.parent == base.name && !slot.hideViewport && slot.geometryType == Cutter
    ensures clip.Some? <==> StraightTiles.HasClip(baseSize.x)
    ensures clip.None? ==> base.modifiers == [Modifier(slot.name, Boolean(Difference, slot.name), true, true)]
    ensures clip.Some? ==> (fresh(clip.value) &&
      clip.value.location == ClipLoc(scene.cursor, baseSize) &&
      clip.value.modifiers == [ArrayMod(StraightTiles.ClipFitLength(baseSize.x))] &&
      clip.value.parent == base.name && clip.value.display == Bounds && clip.value.hideViewport &&
      base.modifiers == [Modifier(slot.name, Boolean(Difference, slot.name), true, true),
                         Modifier(clipName, Boolean(Difference, clipName), true, true)])
  {
    base := CreatePlainBase(scene, tileName, baseSize);
    slot := CreateSlotCutter(scene, base, tileName, baseSize, SlotOffset);
    if StraightTiles.HasClip(baseSize.x) {
      var c := CreateClipCutter(base, clipName, clipSize, baseSize);
      base.AddModifier(Modifier(c.name, Boolean(Difference, c.name), true, true));
      c.parent := base.name;
      c.display := Bounds;
      c.hideViewport := true;
      clip := Some(c);
    } else {
      clip := None;
    }
  }

  /*** Cores ***/

  /** `create_core`: the core centred on the cursor and standing on the base's top. */
  method CreateCore(scene: Scene, tileName: string, tileSize: Vec3, baseSize: Vec3) returns (core: Obj)
    ensures fresh(core)
    ensures core.name == tileName + ".core" && core.size == CoreSize(tileSize, baseSize)
    ensures core.location == scene.cursor && core.Lo() == CoreLo(scene.cursor, tileSize, baseSize)
    ensures core.modifiers == [] && core.cutters == [] && core.parent == "" && !core.hideViewport
  {
    var cursorStart := scene.cursor;
    core := new Obj(tileName + ".core", Vec3(tileSize.x, tileSize.y, tileSize.z - baseSize.z), scene.cursor);
    core.location := Vec3(cursorStart.x - tileSize.x / 2.0, cursorStart.y - tileSize.y / 2.0, cursorStart.z + baseSize.z);
    core.OriginToCursor(scene.cursor);
  }

  /**
   * `create_cores`: the preview core and its displacement copy (made by a
   * helper that is not part of this model and assumed here to be a copy of
   * the preview core named `dispName`), both parented to the base; the
   * displacement core is hidden and the two are tagged PREVIEW and
   * DISPLACEMENT.
   */
  method CreateCores(scene: Scene, base: Obj, tileName: string, tileSize: Vec3, baseSize: Vec3, dispName: string)
    returns (preview: Obj, displacement: Obj)
    ensures fresh(preview) && fresh(displacement) && preview != displacement
    ensures preview.name == tileName + ".core" && displacement.name == dispName
    ensures preview.size == CoreSize(tileSize, baseSize) && displacement.size == preview.size
    ensures preview.location == scene.cursor && displacement.location == scene.cursor
    ensures preview.Lo() == CoreLo(scene.cursor, tileSize, baseSize) && displacement.Lo() == preview.Lo()
    ensures preview.modifiers == [] && preview.cutters == [] && displacement.modifiers == [] && displacement.cutters == []
    ensures preview.parent == base.name && displacement.parent == base.name
    ensures !preview.hideViewport && displacement.hideViewport
    ensures preview.geometryType == Preview && displacement.geometryType == Displacement
  {
    preview := CreateCore(scene, tileName, tileSize, baseSize);
    displacement := preview.Copy();
    displacement.name := dispName;
    preview.parent := base.name;
    displacement.parent := base.name;
    displacement.hideViewport := true;
    preview.geometryType := Preview;
    displacement.geometryType := Displacement;
  }

  /**
   * `create_openlock_wall_cutters`: copies of the library side cutter
   * (geometry `template`, copy names `names`) at the core's two ends, the
   * right pair turned 180 degrees; in each pair the top copy is raised 0.75
   * and fitted 0.8 shorter.
   */
  method CreateWallCutters(core: Obj, tileSize: Vec3, template: Vec3, names: seq<string>) returns (cutters: seq<Obj>)
    requires |names| == 4
    ensures |cutters| == 4 && forall i :: 0 <= i < 4 ==> fresh(cutters[i])
    ensures Distinct(cutters)
    ensures forall i :: 0 <= i < 4 ==> cutters[i].name == names[i]
    ensures cutters[0].location == LeftCutterLoc(core.location, tileSize) && cutters[0].rotationZ == 0.0
    ensures cutters[1].location == Up(LeftCutterLoc(core.location, tileSize), 0.75) && cutters[1].rotationZ == 0.0
    ensures cutters[2].location == RightCutterLoc(core.location, tileSize) && cutters[2].rotationZ == 180.0
    ensures cutters[3].location == Up(RightCutterLoc(core.location, tileSize), 0.75) && cutters[3].rotationZ == 180.0
    ensures cutters[0].modifiers == [ArrayMod(tileSize.z - 1.0)] && cutters[2].modifiers == [ArrayMod(tileSize.z - 1.0)]
    ensures cutters[1].modifiers == [ArrayMod(tileSize.z - 1.8)] && cutters[3].modifiers == [ArrayMod(tileSize.z - 1.8)]
    ensures forall i :: 0 <= i < 4 ==> cutters[i].geometryType == Unset
  {
    var lb, lt := SpawnSideCutters(names[0], names[1], template, LeftCutterLoc(core.location, tileSize), 0.0, tileSize.z);
    var rb, rt := SpawnSideCutters(names[2], names[3], template, RightCutterLoc(core.location, tileSize), 180.0, tileSize.z);
    cutters := [lb, lt, rb, rt];
  }

  /**
   * The loop of `create_openlock_cores`: the four side cutters made at the
   * preview core; each is parented to the base, shown as bounds and hidden
   * (its geometry type is left alone), and each core gets, per cutter, one
   * DIFFERENCE boolean named cutter name + '.bool' that still renders, and
   * one collection entry in use parented to that core.
   */
  method AddOpenlockCutters(base: Obj, preview: Obj, displacement: Obj, tileSize: Vec3, template: Vec3,
                            cutterNames: seq<string>)
    returns (cutters: seq<Obj>)
    requires |cutterNames| == 4 && preview != displacement
    modifies preview`modifiers, preview`cutters, displacement`modifiers, displacement`cutters
    ensures |cutters| == 4 && forall i :: 0 <= i < 4 ==> fresh(cutters[i]) && cutters[i].name == cutterNames[i]
    ensures forall j :: 0 <= j < 4 ==>
      cutters[j].parent == base.name && cutters[j].display == Bounds && cutters[j].hideViewport &&
      cutters[j].geometryType == Unset
    ensures preview.modifiers == old(preview.modifiers) + CutterBools(cutterNames, false) &&
      preview.cutters == old(preview.cutters) + CutterItems(cutterNames, preview.name)
    ensures displacement.modifiers == old(displacement.modifiers) + CutterBools(cutterNames, false) &&
      displacement.cutters == old(displacement.cutters) + CutterItems(cutterNames, displacement.name)
  {
    cutters := CreateWallCutters(preview, tileSize, template, cutterNames);
    NamesUnchanged(cutters, cutterNames);
    RegisterOnCores(cutters, preview, displacement, base.name, Bounds, false, false);
  }

  /** `create_openlock_cores`: both cores, then the side cutters registered on them. */
  method CreateOpenlockCores(scene: Scene, base: Obj, tileName: string, tileSize: Vec3, baseSize: Vec3, dispName: string,
                             template: Vec3, cutterNames: seq<string>)
    returns (preview: Obj, displacement: Obj, cutters: seq<Obj>)
    requires |cutterNames| == 4
    ensures fresh(preview) && fresh(displacement) && preview != displacement
    ensures preview.Lo() == CoreLo(scene.cursor, tileSize, baseSize) && preview.size == CoreSize(tileSize, baseSize)
    ensures preview.parent == base.name && displacement.parent == base.name && displacement.hideViewport
    ensures preview.geometryType == Preview && displacement.geometryType == Displacement
    ensures |cutters| == 4 && forall i :: 0 <= i < 4 ==> fresh(cutters[i]) && cutters[i].name == cutterNames[i]
    ensures preview.modifiers == CutterBools(cutterNames, false) && preview.cutters == CutterItems(cutterNames, preview.name)
    ensures displacement.modifiers == CutterBools(cutterNames, false) &&
      displacement.cutters == CutterItems(cutterNames, displacement.name)
  {
    preview, displacement := CreateCores(scene, base, tileName, tileSize, baseSize, dispName);
    cutters := AddOpenlockCutters(base, preview, displacement, tileSize, template, cutterNames);
  }

  /*** The tile ***/

  /** The base blueprints `create_straight_wall` has a branch for. */
  predicate KnownBase(blueprint: string)
  {
    blueprint == "OPENLOCK" || blueprint == "PLAIN" || blueprint == "NONE"
  }

  /**
   * The base size recorded on the base, which the cores read back: forced
   * for OpenLOCK, the scene's base size for a plain base, and the property's
   * default (all zero) on the empty that stands in for no base.
   */
  function StoredBaseSize(blueprint: string, tileX: real, sceneBase: Vec3): Vec3
  {
    if blueprint == "OPENLOCK" then OpenlockBaseSize(tileX)
    else if blueprint == "PLAIN" then sceneBase
    else Origin
  }

  /** The tile size the cores are built to: OpenLOCK forces the thickness. */
  function CoreTileSize(blueprint: string, tileSize: Vec3): Vec3
  {
    if blueprint == "OPENLOCK" then OpenlockCoreSize(tileSize) else tileSize
  }

  /**
   * The base branch of `create_straight_wall`: an OpenLOCK or plain base
   * centred on the cursor, or for 'NONE' an empty object at the world
   * origin; any other blueprint leaves the base unbound, which the caller's
   * next use of it raises (`None` here).
   */
  method CreateBase(scene: Scene, tileName: string, blueprint: string, tileX: real, sceneBase: Vec3,
                    clipName: string, clipSize: Vec3)
    returns (base: Option<Obj>)
    ensures base.Some? <==> KnownBase(blueprint)
    ensures base.Some? ==> fresh(base.value) && base.value.name == tileName + ".base" && base.value.parent == ""
    ensures base.Some? && blueprint != "NONE" ==>
      var bs := StoredBaseSize(blueprint, tileX, sceneBase);
      base.value.size == bs && base.value.location == scene.cursor && base.value.Lo() == CentredLo(scene.cursor, bs) &&
      base.value.geometryType == Base
    ensures blueprint == "NONE" ==> base.value.size == Origin && base.value.location == Origin && base.value.modifiers == []
  {
    if blueprint == "OPENLOCK" {
      var b, slot, clip := CreateOpenlockBase(scene, tileName, OpenlockBaseSize(tileX), clipName, clipSize);
      base := Some(b);
    } else if blueprint == "PLAIN" {
      var b := CreatePlainBase(scene, tileName, sceneBase);
      base := Some(b);
    } else if blueprint == "NONE" {
      var b := new Obj(tileName + ".base", Origin, Origin);
      base := Some(b);
    } else {
      base := None;
    }
  }

  /**
   * The main-part branch of `create_straight_wall`: OpenLOCK cores with
   * their side cutters, or plain cores with the displacement core hidden;
   * any other blueprint makes no cores.
   */
  method CreateMainPart(scene: Scene, base: Obj, tileName: string, blueprint: string, tileSize: Vec3, baseSize: Vec3,
                        dispName: string, template: Vec3, cutterNames: seq<string>)
    returns (preview: Option<Obj>, displacement: Option<Obj>)
    requires |cutterNames| == 4
    ensures preview.Some? <==> (blueprint == "OPENLOCK" || blueprint == "PLAIN")
    ensures displacement.Some? <==> preview.Some?
    ensures preview.Some? ==> var ts := CoreTileSize(blueprint, tileSize);
      fresh(preview.value) && fresh(displacement.value) && preview.value != displacement.value &&
      preview.value.Lo() == CoreLo(scene.cursor, ts, baseSize) && preview.value.size == CoreSize(ts, baseSize) &&
      preview.value.parent == base.name && displacement.value.parent == base.name && displacement.value.hideViewport &&
      preview.value.geometryType == Preview && displacement.value.geometryType == Displacement
    ensures blueprint == "OPENLOCK" ==>
      preview.value.modifiers == CutterBools(cutterNames, false) &&
      displacement.value.modifiers == CutterBools(cutterNames, false) &&
      preview.value.cutters == CutterItems(cutterNames, preview.value.name) &&
      displacement.value.cutters == CutterItems(cutterNames, displacement.value.name)
    ensures blueprint == "PLAIN" ==> preview.value.modifiers == [] && displacement.value.modifiers == []
  {
    if blueprint == "OPENLOCK" {
      var p, d, cutters := CreateOpenlockCores(scene, base, tileName, OpenlockCoreSize(tileSize), baseSize, dispName,
                                               template, cutterNames);
      preview, displacement := Some(p), Some(d);
    } else if blueprint == "PLAIN" {
      var p, d := CreateCores(scene, base, tileName, tileSize, baseSize, dispName);
      d.hideViewport := true;
      preview, displacement := Some(p), Some(d);
    } else {
      preview, displacement := None, None;
    }
  }

  /**
   * `create_straight_wall`: the tile is built with the cursor and the tile's
   * empty at the world origin; the base is parented to the empty and both
   * the empty and the cursor then go to the cursor's original location. An
   * unknown base blueprint stops the build with the cursor and the empty
   * left at the origin and nothing made.
   */
  method CreateStraightWall(scene: Scene, empty: Obj, tileName: string, baseBlueprint: string, mainBlueprint: string,
                            tileSize: Vec3, sceneBase: Vec3, clipName: string, clipSize: Vec3, dispName: string,
                            template: Vec3, cutterNames: seq<string>)
    returns (base: Option<Obj>, preview: Option<Obj>, displacement: Option<Obj>)
    requires |cutterNames| == 4
    modifies scene`cursor, empty`location
    ensures base.Some? <==> KnownBase(baseBlueprint)
    ensures base.None? ==> scene.cursor == Origin && empty.location == Origin && preview.None? && displacement.None?
    ensures base.Some? ==> (scene.cursor == old(scene.cursor) && empty.location == old(scene.cursor) &&
      fresh(base.value) && base.value.parent == empty.name)
    ensures base.Some? && baseBlueprint != "NONE" ==>
      var bs := StoredBaseSize(baseBlueprint, tileSize.x, sceneBase);
      base.value.size == bs && base.value.Lo() == CentredLo(Origin, bs)
    ensures preview.Some? <==> base.Some? && (mainBlueprint == "OPENLOCK" || mainBlueprint == "PLAIN")
    ensures displacement.Some? <==> preview.Some?
    ensures preview.Some? ==>
      var ts, bs := CoreTileSize(mainBlueprint, tileSize), StoredBaseSize(baseBlueprint, tileSize.x, sceneBase);
      fresh(preview.value) && fresh(displacement.value) &&
      preview.value.Lo() == CoreLo(Origin, ts, bs) && preview.value.size == CoreSize(ts, bs) &&
      preview.value.parent == base.value.name && displacement.value.parent == base.value.name &&
      displacement.value.hideViewport
    ensures preview.Some? && mainBlueprint == "OPENLOCK" ==>
      preview.value.modifiers == CutterBools(cutterNames, false) &&
      displacement.value.modifiers == CutterBools(cutterNames, false)
  {
    var cursorOrig := scene.cursor;
    scene.cursor := Origin;
    empty.location := Origin;
    base := CreateBase(scene, tileName, baseBlueprint, tileSize.x, sceneBase, clipName, clipSize);
    if base.None? {
      preview, displacement := None, None;
      return;
    }
    var b := base.value;
    var bs := StoredBaseSize(baseBlueprint, tileSize.x, sceneBase);
    preview, displacement := CreateMainPart(scene, b, tileName, mainBlueprint, tileSize, bs, dispName, template, cutterNames);
    b.parent := empty.name;
    empty.location := cursorOrig;
    scene.cursor := cursorOrig;
  }
}
