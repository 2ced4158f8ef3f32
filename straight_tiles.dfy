/**
 * The straight-tile builders (`tile_creation/Straight_Tiles.py`): the plain
 * and OpenLOCK bases with their slot and clip cutters, the wall core, the
 * four OpenLOCK side cutters and their registration on both cores, and the
 * box classifier that splits a wall core's vertices into six side groups.
 *
 * Every builder works at the scene cursor. Drawn geometry is placed with its
 * first corner at the cursor; `origin_set(type='ORIGIN_CURSOR')` moves the
 * origin back to the cursor without moving the geometry (`Obj.OriginToCursor`).
 */
module StraightTiles {
  import opened Common
  import opened Objects

  function Abs(x: real): real
  {
    if x < 0.0 then -x else x
  }

  /*** Bases and their cutters ***/

  /** How far the base slot stops short of each end of the base. */
  const SlotMargin: real := 0.236

  /**
   * The slot cutter's size: y and z are fixed, and the x extent is the
   * base's x extent shortened by the margin at both ends, for a base drawn in
   * either direction along x.
   */
  function SlotCutterSize(baseX: real): (r: Vec3)
    ensures r.y == 0.197 && r.z == 0.25
    ensures Abs(baseX) >= 2.0 * SlotMargin ==> Abs(r.x) == Abs(baseX) - 2.0 * SlotMargin
    ensures Abs(baseX) > 2.0 * SlotMargin ==> (r.x > 0.0 <==> baseX > 0.0)
  {
    if baseX > 0.0 then Vec3(baseX - SlotMargin * 2.0, 0.197, 0.25)
    else Vec3(baseX + SlotMargin * 2.0, 0.197, 0.25)
  }

  /**
   * Where the slot cutter's geometry starts, for a base whose geometry starts
   * at `baseLoc`: centred on the base in x (one margin in from the base's
   * first end), `offset` in along y, and 0.001 below the base's bottom.
   */
  function SlotCutterLo(baseLoc: Vec3, baseX: real, offset: real): (r: Vec3)
    ensures r.x + SlotCutterSize(baseX).x / 2.0 == baseLoc.x + baseX / 2.0
    ensures baseX > 0.0 ==> r.x == baseLoc.x + SlotMargin
    ensures baseX <= 0.0 ==> r.x == baseLoc.x - SlotMargin
    ensures r.y == baseLoc.y + offset && r.z < baseLoc.z && r.z + SlotCutterSize(baseX).z > baseLoc.z
  {
    var diff := baseX - SlotCutterSize(baseX).x;
    Vec3(baseLoc.x + diff / 2.0, baseLoc.y + offset, baseLoc.z - 0.001)
  }

  /** The clip cutter exists only on a base at least one unit long. */
  predicate HasClip(baseX: real)
  {
    Abs(baseX) >= 1.0
  }

  /** Where the clip cutter is placed, for a base whose origin is at `baseLoc`. */
  function ClipCutterLoc(baseLoc: Vec3): Vec3
  {
    Add(baseLoc, Vec3(0.5, 0.25, 0.0))
  }

  /** The length the clip array is fitted to. */
  function ClipFitLength(baseX: real): real
  {
    baseX - 1.0
  }

  /**
   * On a base that gets a clip, the clip array starts half a unit in from the
   * base's start and its fitted length stops half a unit short of the
   * base's end, so it never has a negative length on a base drawn along +x.
   */
  lemma ClipInsideBase(baseLoc: Vec3, baseX: real)
    requires HasClip(baseX) && baseX > 0.0
    ensures ClipCutterLoc(baseLoc).x - baseLoc.x == 0.5
    ensures (baseLoc.x + baseX) - (ClipCutterLoc(baseLoc).x + ClipFitLength(baseX)) == 0.5
    ensures ClipFitLength(baseX) >= 0.0
  {
  }

  /** `spawn_plain_base`: a cuboid of the base size at the cursor, named after the tile. */
  method SpawnPlainBase(scene: Scene, tileName: string, baseSize: Vec3) returns (base: Obj)
    ensures fresh(base)
    ensures base.name == tileName + ".base" && base.size == baseSize
    ensures base.location == scene.cursor && base.Lo() == scene.cursor
    ensures base.modifiers == [] && base.cutters == [] && base.parent == "" && base.geometryType == Base
  {
    base := new Obj(tileName + ".base", baseSize, scene.cursor);
    base.OriginToCursor(scene.cursor);
    base.geometryType := Base;
  }

  /**
   * `create_openlock_base_slot_cutter`: the slot cutter, drawn at the cursor
   * and moved under the base; the base gets a DIFFERENCE boolean named after
   * the cutter (without '.bool'), and the cutter is parented to the base,
   * shown as bounds, hidden and marked as a cutter.
   */
  method CreateSlotCutter(scene: Scene, base: Obj, tileName: string, baseSize: Vec3, offset: real) returns (cutter: Obj)
    modifies base`modifiers
    ensures fresh(cutter)
    ensures cutter.name == tileName + ".slot_cutter" && cutter.size == SlotCutterSize(baseSize.x)
    ensures cutter.Lo() == SlotCutterLo(old(base.location), baseSize.x, offset) && cutter.location == scene.cursor
    ensures base.modifiers == old(base.modifiers) + [Modifier(cutter.name, Boolean(Difference, cutter.name), true, true)]
    ensures cutter.parent == base.name && cutter.display == Bounds && cutter.hideViewport && cutter.geometryType == Cutter
  {
    var baseLocation := base.location;
    cutter := new Obj(tileName + ".slot_cutter", SlotCutterSize(baseSize.x), scene.cursor);
    cutter.location := SlotCutterLo(baseLocation, baseSize.x, offset);
    cutter.OriginToCursor(scene.cursor);
    base.AddModifier(Modifier(cutter.name, Boolean(Difference, cutter.name), true, true));
    cutter.parent := base.name;
    cutter.display := Bounds;
    cutter.hideViewport := true;
    cutter.geometryType := Cutter;
  }

  /**
   * `create_openlock_base_clip_cutter`: the library clip cutter (geometry
   * `clipSize`, name `clipName`) placed on the base with an array fitted to
   * the base length less one.
   */
  method CreateClipCutter(base: Obj, clipName: string, clipSize: Vec3, baseSize: Vec3) returns (clip: Obj)
    ensures fresh(clip)
    ensures clip.name == clipName && clip.size == clipSize
    ensures clip.location == ClipCutterLoc(base.location)
    ensures clip.modifiers == [ArrayMod(ClipFitLength(baseSize.x))] && clip.geometryType == Cutter
    ensures clip.parent == "" && !clip.hideViewport
  {
    clip := new Obj(clipName, clipSize, ClipCutterLoc(base.location));
    clip.AddModifier(ArrayMod(ClipFitLength(baseSize.x)));
    clip.geometryType := Cutter;
  }

  /**
   * `spawn_openlock_base`: a plain base with the slot cutter (offset 0.236)
   * and, when the base is at least one unit long, the clip cutter, applied
   * by a DIFFERENCE boolean named after the clip and parented, shown as
   * bounds and hidden.
   */
  method SpawnOpenlockBase(scene: Scene, tileName: string, baseSize: Vec3, clipName: string, clipSize: Vec3)
    returns (base: Obj, slot: Obj, clip: Option<Obj>)
    modifies scene`cursor
    ensures scene.cursor == old(scene.cursor)
    ensures fresh(base) && fresh(slot) && base.name == tileName + ".base" && base.Lo() == scene.cursor
    ensures slot.Lo() == SlotCutterLo(scene.cursor, baseSize.x, SlotMargin) && slot.size == SlotCutterSize(baseSize.x)
    ensures slot.parent == base.name && slot.hideViewport && slot.geometryType == Cutter
    ensures clip.Some? <==> HasClip(baseSize.x)
    ensures clip.None? ==> base.modifiers == [Modifier(slot.name, Boolean(Difference, slot.name), true, true)]
    ensures clip.Some? ==> (fresh(clip.value) &&
      clip.value.location == ClipCutterLoc(scene.cursor) && clip.value.modifiers == [ArrayMod(ClipFitLength(baseSize.x))] &&
      clip.value.parent == base.name && clip.value.display == Bounds && clip.value.hideViewport &&
      base.modifiers == [Modifier(slot.name, Boolean(Difference, slot.name), true, true),
                         Modifier(clipName, Boolean(Difference, clipName), true, true)])
  {
    base := SpawnPlainBase(scene, tileName, baseSize);
    slot := CreateSlotCutter(scene, base, tileName, baseSize, SlotMargin);
    slot.hideViewport := true;
    if HasClip(baseSize.x) {
      var c := CreateClipCutter(base, clipName, clipSize, baseSize);
      base.AddModifier(Modifier(c.name, Boolean(Difference, c.name), true, true));
      c.parent := base.name;
      c.display := Bounds;
      c.hideViewport := true;
      clip := Some(c);
    } else {
      clip := None;
    }
  }

  /*** The wall core ***/

  /** The core is as tall as the tile less the base. */
  function WallCoreSize(tileSize: Vec3, baseSize: Vec3): Vec3
  {
    Vec3(tileSize.x, tileSize.y, tileSize.z - baseSize.z)
  }

  /** Where the core's geometry starts, for a core drawn at `cursor`. */
  function WallCoreLo(cursor: Vec3, tileSize: Vec3, baseSize: Vec3): Vec3
  {
    Vec3(cursor.x, cursor.y + (baseSize.y - tileSize.y) / 2.0, cursor.z + baseSize.z)
  }

  /**
   * The core stands on the base drawn at the same cursor: it shares the
   * base's y mid-plane, its bottom is the base's top, and its top is the
   * tile's full height above the cursor.
   */
  lemma WallCoreOnBase(cursor: Vec3, tileSize: Vec3, baseSize: Vec3)
    ensures var lo, size := WallCoreLo(cursor, tileSize, baseSize), WallCoreSize(tileSize, baseSize);
      lo.y + size.y / 2.0 == cursor.y + baseSize.y / 2.0 &&
      lo.z == cursor.z + baseSize.z && lo.z + size.z == cursor.z + tileSize.z &&
      lo.x == cursor.x && lo.x + size.x == cursor.x + tileSize.x
  {
  }

  /**
   * `spawn_wall_core`: the wall core drawn at the cursor and moved onto the
   * base, with its origin back at the cursor; its vertices (`mesh`, as drawn)
   * are then sorted into the six side groups.
   */
  method SpawnWallCore(scene: Scene, tileName: string, tileSize: Vec3, baseSize: Vec3, mesh: VertexData)
    returns (core: Obj)
    modifies scene`cursor, mesh`selected, mesh`groups
    ensures fresh(core) && scene.cursor == old(scene.cursor)
    ensures core.name == tileName + ".core" && core.size == WallCoreSize(tileSize, baseSize)
    ensures core.location == scene.cursor && core.Lo() == WallCoreLo(scene.cursor, tileSize, baseSize)
    ensures core.modifiers == [] && core.cutters == [] && core.parent == ""
    ensures mesh.groups == BoxGroups(old(mesh.groups), old(mesh.selected), mesh.verts, core.size)
    ensures mesh.selected == {}
  {
    var start := scene.cursor;
    core := new Obj(tileName + ".core", WallCoreSize(tileSize, baseSize), scene.cursor);
    core.location := Vec3(core.location.x, core.location.y + (baseSize.y - tileSize.y) / 2.0, start.z + baseSize.z);
    core.OriginToCursor(scene.cursor);
    StraightWallToVertGroups(scene, core, mesh);
  }

  /*** OpenLOCK side cutters ***/

  /** Where the bottom-left side cutter goes, for a core whose origin is at `coreLoc`. */
  function LeftCutterLoc(coreLoc: Vec3, baseSize: Vec3): Vec3
  {
    Vec3(coreLoc.x, coreLoc.y + baseSize.y / 2.0, coreLoc.z + 0.63)
  }

  /** Where the bottom-right side cutter goes: the other end of the tile. */
  function RightCutterLoc(coreLoc: Vec3, tileSize: Vec3, baseSize: Vec3): Vec3
  {
    Vec3(coreLoc.x + tileSize.x, coreLoc.y + baseSize.y / 2.0, coreLoc.z + 0.63)
  }

  /**
   * For a core spawned at the cursor, the two bottom side cutters sit at the
   * core's two x ends, on its y mid-plane, 0.63 above the cursor (the
   * bottom of the base), and the pair is symmetric about the core's middle.
   */
  lemma SideCuttersAtCoreEnds(cursor: Vec3, tileSize: Vec3, baseSize: Vec3)
    ensures var lo, size := WallCoreLo(cursor, tileSize, baseSize), WallCoreSize(tileSize, baseSize);
      var l, r := LeftCutterLoc(cursor, baseSize), RightCutterLoc(cursor, tileSize, baseSize);
      l.x == lo.x && r.x == lo.x + size.x && (l.x + r.x) / 2.0 == lo.x + size.x / 2.0 &&
      l.y == lo.y + size.y / 2.0 && r.y == l.y && l.z == cursor.z + 0.63 && r.z == l.z
  {
  }

  /**
   * `create_openlock_wall_cutters`: the left pair at the core's start, the
   * right pair at its end turned 180 degrees; in each pair the top copy is
   * raised 0.75 and fitted 0.8 shorter.
   */
  method CreateWallCutters(core: Obj, tileName: string, template: Vec3, tileSize: Vec3, baseSize: Vec3)
    returns (cutters: seq<Obj>)
    ensures |cutters| == 4 && forall i :: 0 <= i < 4 ==> fresh(cutters[i])
    ensures Distinct(cutters)
    ensures NamesOf(cutters) == ["X Neg Bottom." + tileName, "X Neg Top." + tileName,
                                 "X Pos Bottom." + tileName, "X Pos Top." + tileName]
    ensures cutters[0].location == LeftCutterLoc(core.location, baseSize) && cutters[0].rotationZ == 0.0
    ensures cutters[1].location == Up(LeftCutterLoc(core.location, baseSize), 0.75) && cutters[1].rotationZ == 0.0
    ensures cutters[2].location == RightCutterLoc(core.location, tileSize, baseSize) && cutters[2].rotationZ == 180.0
    ensures cutters[3].location == Up(RightCutterLoc(core.location, tileSize, baseSize), 0.75) && cutters[3].rotationZ == 180.0
    ensures cutters[0].modifiers == [ArrayMod(tileSize.z - 1.0)] && cutters[2].modifiers == [ArrayMod(tileSize.z - 1.0)]
    ensures cutters[1].modifiers == [ArrayMod(tileSize.z - 1.8)] && cutters[3].modifiers == [ArrayMod(tileSize.z - 1.8)]
    ensures forall i :: 0 <= i < 4 ==> cutters[i].geometryType == Unset
  {
    var lb, lt := SpawnSideCutters("X Neg Bottom." + tileName, "X Neg Top." + tileName, template,
                                   LeftCutterLoc(core.location, baseSize), 0.0, tileSize.z);
    var rb, rt := SpawnSideCutters("X Pos Bottom." + tileName, "X Pos Top." + tileName, template,
                                   RightCutterLoc(core.location, tileSize, baseSize), 180.0, tileSize.z);
    cutters := [lb, lt, rb, rt];
  }

  /**
   * `create_openlock_wall_cores`: the preview core, its displacement copy
   * (`displacement`, made by a helper that is not part of this model) and the
   * four side cutters; every cutter is parented to the base, shown as bounds,
   * hidden and marked as a cutter, and each core gets, per cutter, one
   * DIFFERENCE boolean named cutter name + '.bool' with render off and one
   * collection entry in use parented to that core. The displacement core is
   * then hidden.
   */
  method CreateOpenlockWallCores(base: Obj, preview: Obj, displacement: Obj, tileName: string, template: Vec3,
                                 tileSize: Vec3, baseSize: Vec3)
    returns (cutters: seq<Obj>)
    requires preview != displacement
    modifies preview`modifiers, preview`cutters, displacement`modifiers, displacement`cutters, displacement`hideViewport
    ensures |cutters| == 4 && forall i :: 0 <= i < 4 ==> fresh(cutters[i])
    ensures forall j :: 0 <= j < 4 ==>
      cutters[j].parent == base.name && cutters[j].display == Bounds && cutters[j].hideViewport && cutters[j].geometryType == Cutter
    ensures var names := NamesOf(cutters);
      preview.modifiers == old(preview.modifiers) + CutterBools(names, true) &&
      preview.cutters == old(preview.cutters) + CutterItems(names, preview.name) &&
      displacement.modifiers == old(displacement.modifiers) + CutterBools(names, true) &&
      displacement.cutters == old(displacement.cutters) + CutterItems(names, displacement.name)
    ensures displacement.hideViewport
  {
    cutters := CreateWallCutters(preview, tileName, template, tileSize, baseSize);
    RegisterOnCoresAndHide(cutters, preview, displacement, base.name, Bounds, true, true);
  }

  /*** The box classifier ***/

  /** The six side groups of a wall core. */
  datatype BoxSide = Left | Right | Front | Back | Top | Bottom

  function BoxSideName(s: BoxSide): (r: string)
  {
    match s
    case Left => "Left"
    case Right => "Right"
    case Front => "Front"
    case Back => "Back"
    case Top => "Top"
    case Bottom => "Bottom"
  }

  lemma BoxSideNameInjective(a: BoxSide, b: BoxSide)
    ensures BoxSideName(a) == BoxSideName(b) <==> a == b
  {
  }

  /** How far `select_by_loc` reaches past its bounds. */
  const Buffer: real := 0.0001

  /**
   * The bounds given to `select_by_loc` for each side, in coordinates
   * local to the centre of the core's bounds, `d` being half its dimensions.
   */
  function SideBounds(s: BoxSide, d: Vec3): (Vec3, Vec3)
  {
    match s
    case Left => (Vec3(-d.x - 0.01, -d.y, -d.z + 0.001), Vec3(-d.x + 0.01, d.y, d.z - 0.001))
    case Right => (Vec3(d.x - 0.01, -d.y, -d.z + 0.001), Vec3(d.x + 0.01, d.y, d.z - 0.001))
    case Front => (Vec3(-d.x + 0.001, -d.y, -d.z + 0.001), Vec3(d.x - 0.001, -d.y, d.z - 0.001))
    case Back => (Vec3(-d.x + 0.001, d.y, -d.z + 0.001), Vec3(d.x - 0.001, d.y, d.z - 0.001))
    case Bottom => (Vec3(-d.x + 0.001, -d.y, -d.z), Vec3(d.x - 0.001, d.y, -d.z + 0.01))
    case Top => (Vec3(-d.x + 0.001, -d.y, d.z - 0.012), Vec3(d.x - 0.001, d.y, d.z))
  }

  /** The assumed contract of `select_by_loc`: on every axis, within the bounds widened by the buffer. */
  predicate InBounds(v: Vec3, b: (Vec3, Vec3))
  {
    b.0.x - Buffer <= v.x <= b.1.x + Buffer &&
    b.0.y - Buffer <= v.y <= b.1.y + Buffer &&
    b.0.z - Buffer <= v.z <= b.1.z + Buffer
  }

  function Half(v: Vec3): Vec3
  {
    Vec3(v.x / 2.0, v.y / 2.0, v.z / 2.0)
  }

  /** `obj.dimensions / 2`: dimensions are never negative. */
  function HalfDims(size: Vec3): Vec3
  {
    Vec3(Abs(size.x) / 2.0, Abs(size.y) / 2.0, Abs(size.z) / 2.0)
  }

  /**
   * A vertex of the drawn geometry (given relative to its first corner)
   * seen from the centre of the geometry's bounds.
   */
  function Centred(v: Vec3, size: Vec3): Vec3
  {
    Sub(v, Half(size))
  }

  /** The vertices one side selects. */
  function BoxZone(verts: seq<Vec3>, size: Vec3, s: BoxSide): set<nat>
  {
    set i | 0 <= i < |verts| && InBounds(Centred(verts[i], size), SideBounds(s, HalfDims(size)))
  }

  function GetGroup(g: map<string, set<nat>>, name: string): set<nat>
  {
    if name in g then g[name] else {}
  }

  /** `vertex_group_assign()` on group `name` with `sel` selected. */
  function Assigned(g: map<string, set<nat>>, name: string, sel: set<nat>): map<string, set<nat>>
  {
    g[name := GetGroup(g, name) + sel]
  }

  /**
   * The groups after the classifier: each side's group gains that side's
   * zone; the first also gains whatever was selected on entry.
   */
  function BoxGroups(g: map<string, set<nat>>, sel: set<nat>, verts: seq<Vec3>, size: Vec3): map<string, set<nat>>
  {
    SixAssigned(g, sel + BoxZone(verts, size, Left), BoxZone(verts, size, Right), BoxZone(verts, size, Front),
                BoxZone(verts, size, Back), BoxZone(verts, size, Bottom), BoxZone(verts, size, Top))
  }

  /** The six assignments in the classifier's order, Left to Top. */
  function SixAssigned(g: map<string, set<nat>>, l: set<nat>, r: set<nat>, f: set<nat>,
                       b: set<nat>, bo: set<nat>, t: set<nat>): map<string, set<nat>>
  {
    var g1 := Assigned(g, BoxSideName(Left), l);
    var g2 := Assigned(g1, BoxSideName(Right), r);
    var g3 := Assigned(g2, BoxSideName(Front), f);
    var g4 := Assigned(g3, BoxSideName(Back), b);
    var g5 := Assigned(g4, BoxSideName(Bottom), bo);
    Assigned(g5, BoxSideName(Top), t)
  }

  /** On fresh groups, each of the six names ends up holding its own set. */
  lemma SixAssignedAt(g: map<string, set<nat>>, l: set<nat>, r: set<nat>, f: set<nat>,
                      b: set<nat>, bo: set<nat>, t: set<nat>)
    requires g.Keys !! SideNames
    ensures var m := SixAssigned(g, l, r, f, b, bo, t);
      m[BoxSideName(Left)] == l && m[BoxSideName(Right)] == r && m[BoxSideName(Front)] == f &&
      m[BoxSideName(Back)] == b && m[BoxSideName(Bottom)] == bo && m[BoxSideName(Top)] == t
  {
    assert "Left" !in g && "Right" !in g && "Front" !in g;
    assert "Back" !in g && "Bottom" !in g && "Top" !in g;
  }

  /** The names of the six groups. */
  const SideNames: set<string> := {"Left", "Right", "Front", "Back", "Top", "Bottom"}

  /**
   * On groups the classifier has not made yet, with nothing selected, every
   * side's group holds exactly that side's zone and the other groups are
   * left alone.
   */
  lemma BoxGroupsSpec(g: map<string, set<nat>>, verts: seq<Vec3>, size: Vec3, s: BoxSide)
    requires g.Keys !! SideNames
    ensures var r := BoxGroups(g, {}, verts, size);
      r.Keys == g.Keys + SideNames &&
      r[BoxSideName(s)] == BoxZone(verts, size, s) &&
      forall n :: n in g ==> r[n] == g[n]
  {
    BoxGroupsKeys(g, verts, size);
    BoxGroupsSide(g, verts, size, s);
    BoxGroupsOthers(g, verts, size);
  }

  lemma BoxGroupsKeys(g: map<string, set<nat>>, verts: seq<Vec3>, size: Vec3)
    ensures BoxGroups(g, {}, verts, size).Keys == g.Keys + SideNames
  {
  }

  lemma BoxGroupsOthers(g: map<string, set<nat>>, verts: seq<Vec3>, size: Vec3)
    requires g.Keys !! SideNames
    ensures forall n :: n in g ==> BoxGroups(g, {}, verts, size)[n] == g[n]
  {
    forall n | n in g
      ensures BoxGroups(g, {}, verts, size)[n] == g[n]
    {
      assert n !in SideNames;
    }
  }

  lemma BoxGroupsSide(g: map<string, set<nat>>, verts: seq<Vec3>, size: Vec3, s: BoxSide)
    requires g.Keys !! SideNames
    ensures BoxGroups(g, {}, verts, size)[BoxSideName(s)] == BoxZone(verts, size, s)
  {
    var zl := BoxZone(verts, size, Left);
    assert {} + zl == zl;
    SixAssignedAt(g, zl, BoxZone(verts, size, Right), BoxZone(verts, size, Front),
                  BoxZone(verts, size, Back), BoxZone(verts, size, Bottom), BoxZone(verts, size, Top));
  }

  /**
   * Opposite sides never share a vertex once the core is thicker than the
   * slabs: Left/Right and Top/Bottom by their widths, Front/Back by the
   * buffer alone.
   */
  lemma OppositeSidesDisjoint(verts: seq<Vec3>, size: Vec3)
    ensures Abs(size.x) > 0.0202 ==> BoxZone(verts, size, Left) !! BoxZone(verts, size, Right)
    ensures Abs(size.y) > 0.0002 ==> BoxZone(verts, size, Front) !! BoxZone(verts, size, Back)
    ensures Abs(size.z) > 0.0222 ==> BoxZone(verts, size, Bottom) !! BoxZone(verts, size, Top)
  {
  }

  /**
   * The insets keep the edges where an end meets the top out of every
   * group: a vertex on such an edge (at the end's x, on the y mid-plane, at
   * the top) is in none of the six zones once the core is thicker than the
   * slabs.
   */
  lemma EndTopEdgeUnassigned(verts: seq<Vec3>, size: Vec3, i: nat)
    requires i < |verts| && Abs(size.x) > 0.0202 && Abs(size.y) > 0.0002 && Abs(size.z) > 0.0222
    requires var d, c := HalfDims(size), Centred(verts[i], size);
      (c.x == -d.x || c.x == d.x) && c.y == 0.0 && c.z == d.z
    ensures forall s: BoxSide :: i !in BoxZone(verts, size, s)
  {
  }

  /**
   * A vertex on a face of the core, away from that face's rims, is in that
   * face's zone, for each of the six faces.
   */
  lemma FaceVertexClassified(verts: seq<Vec3>, size: Vec3, i: nat)
    requires i < |verts|
    ensures var d, c := HalfDims(size), Centred(verts[i], size);
      c.x == -d.x && -d.y <= c.y <= d.y && -d.z + 0.001 <= c.z <= d.z - 0.001 ==> i in BoxZone(verts, size, Left)
    ensures var d, c := HalfDims(size), Centred(verts[i], size);
      c.x == d.x && -d.y <= c.y <= d.y && -d.z + 0.001 <= c.z <= d.z - 0.001 ==> i in BoxZone(verts, size, Right)
    ensures var d, c := HalfDims(size), Centred(verts[i], size);
      -d.x + 0.001 <= c.x <= d.x - 0.001 && c.y == -d.y && -d.z + 0.001 <= c.z <= d.z - 0.001 ==> i in BoxZone(verts, size, Front)
    ensures var d, c := HalfDims(size), Centred(verts[i], size);
      -d.x + 0.001 <= c.x <= d.x - 0.001 && c.y == d.y && -d.z + 0.001 <= c.z <= d.z - 0.001 ==> i in BoxZone(verts, size, Back)
    ensures var d, c := HalfDims(size), Centred(verts[i], size);
      -d.x + 0.001 <= c.x <= d.x - 0.001 && -d.y <= c.y <= d.y && c.z == -d.z ==> i in BoxZone(verts, size, Bottom)
    ensures var d, c := HalfDims(size), Centred(verts[i], size);
      -d.x + 0.001 <= c.x <= d.x - 0.001 && -d.y <= c.y <= d.y && c.z == d.z ==> i in BoxZone(verts, size, Top)
  {
  }

  /** The vertices of a drawn mesh, its selection and its vertex groups. */
  class VertexData {
    /** Vertex positions relative to the geometry's first corner. */
    const verts: seq<Vec3>
    var selected: set<nat>
    var groups: map<string, set<nat>>

    constructor (verts: seq<Vec3>)
      ensures this.verts == verts && selected == {} && groups == map[]
    {
      this.verts := verts;
      selected := {};
      groups := map[];
    }

    /** `select_by_loc(..., additive=True)` with `coords='LOCAL'`. */
    method SelectSide(size: Vec3, s: BoxSide)
      modifies this`selected
      ensures selected == old(selected) + BoxZone(verts, size, s)
    {
      selected := selected + BoxZone(verts, size, s);
    }

    /** `vertex_group_set_active(group=name)` then `vertex_group_assign()`. */
    method AssignTo(name: string)
      modifies this`groups
      ensures groups == Assigned(old(groups), name, selected)
    {
      groups := Assigned(groups, name, selected);
    }

    method DeselectAll()
      modifies this`selected
      ensures selected == {}
    {
      selected := {};
    }

    /** One side: select it, assign it, deselect. */
    method TagSide(size: Vec3, s: BoxSide)
      modifies this`selected, this`groups
      ensures groups == Assigned(old(groups), BoxSideName(s), old(selected) + BoxZone(verts, size, s))
      ensures selected == {}
    {
      SelectSide(size, s);
      AssignTo(BoxSideName(s));
      DeselectAll();
    }

    /** A side tagged after the previous one was deselected. */
    method TagNext(size: Vec3, s: BoxSide)
      requires selected == {}
      modifies this`selected, this`groups
      ensures groups == Assigned(old(groups), BoxSideName(s), BoxZone(verts, size, s))
      ensures selected == {}
    {
      assert {} + BoxZone(verts, size, s) == BoxZone(verts, size, s);
      TagSide(size, s);
    }

    /** The six sides in the classifier's order. */
    method TagAllSides(size: Vec3)
      modifies this`selected, this`groups
      ensures groups == BoxGroups(old(groups), old(selected), verts, size)
      ensures selected == {}
    {
      TagSide(size, Left);
      TagNext(size, Right);
      TagNext(size, Front);
      TagNext(size, Back);
      TagNext(size, Bottom);
      TagNext(size, Top);
    }
  }

  /**
   * `straight_wall_to_vert_groups`: with the origin moved to the centre of
   * the core's bounds, each side's slab is selected in local coordinates and
   * assigned to its group; then the origin goes back to where it was and the
   * cursor is restored.
   */
  method StraightWallToVertGroups(scene: Scene, obj: Obj, mesh: VertexData)
    modifies scene`cursor, obj`location, obj`offset, mesh`selected, mesh`groups
    ensures scene.cursor == old(scene.cursor)
    ensures obj.location == old(obj.location) && obj.offset == old(obj.offset)
    ensures mesh.groups == BoxGroups(old(mesh.groups), old(mesh.selected), mesh.verts, obj.size)
    ensures mesh.selected == {}
  {
    var objOriginalLoc := obj.location;
    var cursorOriginalLoc := scene.cursor;
    // origin_set(type='ORIGIN_GEOMETRY', center='BOUNDS')
    ghost var lo0, off0 := obj.Lo(), obj.offset;
    obj.location := Add(obj.Lo(), Half(obj.size));
    obj.offset := Sub(Origin, Half(obj.size));
    assert obj.Lo() == lo0;
    ghost var groups0, selected0 := mesh.groups, mesh.selected;
    mesh.TagAllSides(obj.size);
    assert mesh.groups == BoxGroups(groups0, selected0, mesh.verts, obj.size);
    scene.cursor := objOriginalLoc;
    obj.OriginToCursor(scene.cursor);
    assert obj.location == objOriginalLoc && obj.Lo() == lo0;
    AddCancel(objOriginalLoc, obj.offset, off0);
    scene.cursor := cursorOriginalLoc;
  }
}
