// Scene objects as the tile builders see them: a name, a location, a
// z-rotation, the size of the drawn geometry, a modifier stack, the
// `cutters_collection` of the object's MakeTile properties, and the few
// display flags the builders set.

module Objects {
  import opened Common

  datatype BoolOp = Difference | Union | Intersect

  /** The modifier types the builders add, with the settings they touch. */
  datatype ModKind =
    | Boolean(op: BoolOp, target: string)
    | ArrayFit(fitLength: real)
    | Bend(angle: real)
    | Displace(midLevel: real, strength: real)
    | Subsurf(levels: int)
    /** `add_circle_array`: `count` copies, each turned `step` degrees about a centre. */
    | CircleArray(count: real, step: real)

  datatype Modifier = Modifier(name: string, kind: ModKind, showViewport: bool, showRender: bool)

  /** An entry of `cutters_collection`: the cutter, whether it is in use, and the object it cuts. */
  datatype CutterItem = CutterItem(name: string, value: bool, parent: string)

  /** `mt_object_props.geometry_type`; `Unset` is the value before any builder writes it. */
  /** `display_type`. */
  datatype Display = Textured | Bounds | Wire

  datatype GeometryType = Unset | Base | Core | Cutter | Preview | Displacement | Trimmer

  /** The modifier `modifiers[name]` resolves to: the first one with that name. */
  function FindModifier(mods: seq<Modifier>, name: string): (r: Option<nat>)
    ensures r.Some? ==> r.value < |mods| && mods[r.value].name == name
    ensures r.Some? ==> forall k :: 0 <= k < r.value ==> mods[k].name != name
    ensures r.None? <==> forall k :: 0 <= k < |mods| ==> mods[k].name != name
    decreases |mods|
  {
    if mods == [] then None
    else if mods[0].name == name then Some(0)
    else match FindModifier(mods[1..], name)
      case None => None
      case Some(k) => Some(k + 1)
  }

  /** A modifier found past a prefix that has no modifier of that name sits at the same place in the suffix. */
  lemma {:induction false} FindModifierAppend(a: seq<Modifier>, b: seq<Modifier>, name: string)
    requires forall k :: 0 <= k < |a| ==> a[k].name != name
    ensures FindModifier(a + b, name) == match FindModifier(b, name)
      case None => None
      case Some(k) => Some(|a| + k)
    decreases |a|
  {
    if a == [] {
      assert a + b == b;
    } else {
      assert (a + b)[0] == a[0];
      assert (a + b)[1..] == a[1..] + b;
      FindModifierAppend(a[1..], b, name);
    }
  }

  /** The name given to the boolean modifier that applies a cutter. */
  function BoolName(cutter: string): (r: string)
    ensures |r| == |cutter| + 5 && r[..|cutter|] == cutter
  {
    cutter + ".bool"
  }

  /** Different cutters get different boolean modifier names. */
  lemma BoolNameInjective(a: string, b: string)
    ensures BoolName(a) == BoolName(b) <==> a == b
  {
    assert a == BoolName(a)[..|a|];
    assert b == BoolName(b)[..|b|];
  }

  /** The boolean a wall cutter puts on a core: DIFFERENCE, named after the cutter. */
  function CutterBool(cutter: string, renderOff: bool): Modifier
  {
    Modifier(BoolName(cutter), Boolean(Difference, cutter), true, !renderOff)
  }

  /** The booleans added to one core for the cutters, in cutter order. */
  function CutterBools(cutters: seq<string>, renderOff: bool): (r: seq<Modifier>)
    ensures |r| == |cutters|
    decreases |cutters|
  {
    if cutters == [] then []
    else CutterBools(cutters[..|cutters| - 1], renderOff) + [CutterBool(cutters[|cutters| - 1], renderOff)]
  }

  /** The `cutters_collection` entries added to one core: every cutter in use, parented to the core. */
  function CutterItems(cutters: seq<string>, parent: string): (r: seq<CutterItem>)
    ensures |r| == |cutters|
    decreases |cutters|
  {
    if cutters == [] then []
    else CutterItems(cutters[..|cutters| - 1], parent) + [CutterItem(cutters[|cutters| - 1], true, parent)]
  }

  /** Entry i of either list belongs to cutter i. */
  lemma {:induction false} CutterListsAt(cutters: seq<string>, renderOff: bool, parent: string, i: nat)
    requires i < |cutters|
    ensures CutterBools(cutters, renderOff)[i] == CutterBool(cutters[i], renderOff)
    ensures CutterItems(cutters, parent)[i] == CutterItem(cutters[i], true, parent)
    decreases |cutters|
  {
    if i < |cutters| - 1 {
      CutterListsAt(cutters[..|cutters| - 1], renderOff, parent, i);
    }
  }

  predicate Distinct<T(==)>(s: seq<T>)
  {
    forall i, j :: 0 <= i < j < |s| ==> s[i] != s[j]
  }

  /** With distinct cutter names, `name + '.bool'` finds that cutter's own boolean. */
  lemma FindCutterBool(cutters: seq<string>, renderOff: bool, i: nat)
    requires Distinct(cutters) && i < |cutters|
    ensures FindModifier(CutterBools(cutters, renderOff), BoolName(cutters[i])) == Some(i)
  {
    var bools := CutterBools(cutters, renderOff);
    var name := BoolName(cutters[i]);
    forall k | 0 <= k < i
      ensures bools[k].name != name
    {
      CutterListsAt(cutters, renderOff, "", k);
      BoolNameInjective(cutters[k], cutters[i]);
    }
    CutterListsAt(cutters, renderOff, "", i);
  }

  /**
   * On a core that had no modifier called `name + '.bool'` before the
   * cutters were registered, looking that name up finds exactly the boolean
   * of that cutter.
   */
  lemma CutterBoolFound(before: seq<Modifier>, cutters: seq<string>, renderOff: bool, i: nat)
    requires Distinct(cutters) && i < |cutters|
    requires forall k :: 0 <= k < |before| ==> before[k].name != BoolName(cutters[i])
    ensures var mods := before + CutterBools(cutters, renderOff);
      FindModifier(mods, BoolName(cutters[i])) == Some(|before| + i) &&
      mods[|before| + i] == CutterBool(cutters[i], renderOff)
  {
    FindCutterBool(cutters, renderOff, i);
    CutterListsAt(cutters, renderOff, "", i);
    FindModifierAppend(before, CutterBools(cutters, renderOff), BoolName(cutters[i]));
  }

  /** One more cutter appends its boolean and its entry. */
  lemma CutterListsSnoc(names: seq<string>, i: nat, renderOff: bool)
    requires i < |names|
    ensures CutterBools(names[..i + 1], renderOff) == CutterBools(names[..i], renderOff) + [CutterBool(names[i], renderOff)]
    ensures forall parent :: CutterItems(names[..i + 1], parent) == CutterItems(names[..i], parent) + [CutterItem(names[i], true, parent)]
  {
    assert names[..i + 1][..i] == names[..i];
  }

  /** A scene object. */
  class Obj {
    var name: string
    var location: Vec3
    /** `rotation_euler[2]`, in degrees. */
    var rotationZ: real
    /** The dimensions of the drawn geometry. */
    var size: Vec3
    /**
     * Where the drawn geometry's first corner lies relative to the origin:
     * the geometry spans `location + offset` to `location + offset + size`
     * (before rotation). Moving the origin changes `location` and `offset`
     * together and leaves the geometry where it is.
     */
    var offset: Vec3
    var modifiers: seq<Modifier>
    var cutters: seq<CutterItem>
    /** `trimmers_collection` of a tile's empty. */
    var trimmers: seq<CutterItem>
    var parent: string
    var hideViewport: bool
    var display: Display
    var geometryType: GeometryType
    /** `scale[1]` is negative: the object is mirrored along its local y axis. */
    var mirroredY: bool

    /** A new object with the given geometry, no modifiers and no parent. */
    constructor (name: string, size: Vec3, location: Vec3)
      ensures this.name == name && this.size == size && this.location == location && rotationZ == 0.0
      ensures offset == Origin
      ensures modifiers == [] && cutters == [] && trimmers == [] && parent == ""
      ensures !hideViewport && display == Textured && geometryType == Unset && !mirroredY
    {
      this.name := name;
      this.size := size;
      this.location := location;
      offset := Origin;
      rotationZ := 0.0;
      modifiers := [];
      cutters := [];
      trimmers := [];
      parent := "";
      hideViewport := false;
      display := Textured;
      geometryType := Unset;
      mirroredY := false;
    }

    /** `Object.copy()`: a new object with the same fields. */
    method Copy() returns (c: Obj)
      ensures fresh(c)
      ensures c.name == name && c.location == location && c.rotationZ == rotationZ && c.size == size && c.offset == offset
      ensures c.modifiers == modifiers && c.cutters == cutters && c.trimmers == trimmers && c.parent == parent
      ensures c.hideViewport == hideViewport && c.display == display && c.geometryType == geometryType
      ensures c.mirroredY == mirroredY
    {
      c := new Obj(name, size, location);
      c.rotationZ := rotationZ;
      c.offset := offset;
      c.modifiers := modifiers;
      c.cutters := cutters;
      c.trimmers := trimmers;
      c.parent := parent;
      c.hideViewport := hideViewport;
      c.display := display;
      c.geometryType := geometryType;
      c.mirroredY := mirroredY;
    }

    /**
     * `transform.mirror` along the local y axis on this object alone: it is
     * mirrored about its own origin, which stays where it is.
     */
    method MirrorLocalY()
      modifies this`mirroredY
      ensures mirroredY == !old(mirroredY)
    {
      mirroredY := !mirroredY;
    }

    /** The first corner of the geometry in world space. */
    function Lo(): Vec3
      reads this`location, this`offset
    {
      Add(location, offset)
    }

    /** The opposite corner of the geometry in world space. */
    function Hi(): Vec3
      reads this`location, this`offset, this`size
    {
      Add(Add(location, offset), size)
    }

    /** `origin_set(type='ORIGIN_CURSOR')`: the origin moves to the cursor, the geometry stays. */
    method OriginToCursor(cursor: Vec3)
      modifies this`location, this`offset
      ensures location == cursor && Lo() == old(Lo())
    {
      offset := Sub(Add(location, offset), cursor);
      location := cursor;
    }

    /** `modifiers.new` followed by the settings made on the new modifier. */
    method AddModifier(m: Modifier)
      modifies this`modifiers
      ensures modifiers == old(modifiers) + [m]
    {
      modifiers := modifiers + [m];
    }

    /** The per-cutter settings of the registration loop. */
    method MarkCutter(baseName: string, disp: Display, mark: bool)
      modifies this`parent, this`display, this`hideViewport, this`geometryType
      ensures parent == baseName && display == disp && hideViewport
      ensures geometryType == if mark then Cutter else old(geometryType)
    {
      parent := baseName;
      display := disp;
      hideViewport := true;
      if mark {
        geometryType := Cutter;
      }
    }

    /** `cutters_collection.add()` followed by the settings made on the new item. */
    method AddCutterItem(item: CutterItem)
      modifies this`cutters
      ensures cutters == old(cutters) + [item]
    {
      cutters := cutters + [item];
    }

    /** `trimmers_collection.add()` followed by the settings made on the new item. */
    method AddTrimmerItem(item: CutterItem)
      modifies this`trimmers
      ensures trimmers == old(trimmers) + [item]
    {
      trimmers := trimmers + [item];
    }

    /** `modifiers[name].fit_length = v` on an array modifier; `false` where the lookup raises KeyError. */
    method SetFitLength(name: string, v: real) returns (found: bool)
      modifies this`modifiers
      ensures found == FindModifier(old(modifiers), name).Some?
      ensures found ==> var k := FindModifier(old(modifiers), name).value;
        modifiers == old(modifiers)[k := old(modifiers)[k].(kind := ArrayFit(v))]
      ensures !found ==> modifiers == old(modifiers)
    {
      match FindModifier(modifiers, name)
      case None =>
        found := false;
      case Some(k) =>
        modifiers := modifiers[k := modifiers[k].(kind := ArrayFit(v))];
        found := true;
    }

    /** `modifiers[name].show_viewport = v`; `false` where the lookup raises KeyError. */
    method SetShowViewport(name: string, v: bool) returns (found: bool)
      modifies this`modifiers
      ensures found == FindModifier(old(modifiers), name).Some?
      ensures found ==> var k := FindModifier(old(modifiers), name).value;
        modifiers == old(modifiers)[k := old(modifiers)[k].(showViewport := v)]
      ensures !found ==> modifiers == old(modifiers)
    {
      match FindModifier(modifiers, name)
      case None =>
        found := false;
      case Some(k) =>
        modifiers := modifiers[k := modifiers[k].(showViewport := v)];
        found := true;
    }
  }

  /** The array modifier the builders add: named 'Array', fitted to a length. */
  function ArrayMod(fitLength: real): Modifier
  {
    Modifier("Array", ArrayFit(fitLength), true, true)
  }

  /** The 3D cursor of the scene. */
  class Scene {
    var cursor: Vec3

    constructor (cursor: Vec3)
      ensures this.cursor == cursor
    {
      this.cursor := cursor;
    }
  }

  /**
   * The OpenLOCK side-cutter recipe shared by the wall builders: a copy of
   * the library side cutter (geometry `template`) at `loc`, rotated by `rot`
   * degrees, with an array fitted to `tileZ - 1`; and a copy of that cutter
   * raised 0.75 whose array (looked up as 'Array') is refitted to
   * `tileZ - 1.8`.
   */
  method SpawnSideCutters(bottomName: string, topName: string, template: Vec3, loc: Vec3, rot: real, tileZ: real)
    returns (bottom: Obj, top: Obj)
    ensures fresh(bottom) && fresh(top) && bottom != top
    ensures bottom.name == bottomName && top.name == topName
    ensures bottom.location == loc && top.location == Up(loc, 0.75)
    ensures bottom.rotationZ == rot && top.rotationZ == rot
    ensures bottom.size == template && top.size == template
    ensures bottom.modifiers == [ArrayMod(tileZ - 1.0)] && top.modifiers == [ArrayMod(tileZ - 1.8)]
    ensures bottom.cutters == [] && top.cutters == [] && bottom.parent == "" && top.parent == ""
    ensures bottom.geometryType == Unset && top.geometryType == Unset
  {
    bottom := new Obj(bottomName, template, loc);
    bottom.rotationZ := rot;
    bottom.AddModifier(ArrayMod(tileZ - 1.0));
    top := bottom.Copy();
    top.name := topName;
    top.location := Up(top.location, 0.75);
    var found := top.SetFitLength("Array", tileZ - 1.8);
  }

  function NamesOf(objs: seq<Obj>): (r: seq<string>)
    reads (set o | o in objs)`name
    ensures |r| == |objs| && forall i :: 0 <= i < |objs| ==> r[i] == objs[i].name
    decreases |objs|
  {
    if objs == [] then [] else NamesOf(objs[..|objs| - 1]) + [objs[|objs| - 1].name]
  }

  /** The inner loop: every core gets the cutter's boolean and collection entry. */
  method AddCutterToCores(cutter: string, cores: seq<Obj>, renderOff: bool)
    requires Distinct(cores)
    modifies (set k | k in cores)`modifiers, (set k | k in cores)`cutters
    ensures forall j :: 0 <= j < |cores| ==>
      cores[j].modifiers == old(cores[j].modifiers) + [CutterBool(cutter, renderOff)] &&
      cores[j].cutters == old(cores[j].cutters) + [CutterItem(cutter, true, cores[j].name)]
  {
    var j := 0;
    while j < |cores|
      invariant 0 <= j <= |cores|
      invariant forall l :: 0 <= l < j ==>
        cores[l].modifiers == old(cores[l].modifiers) + [CutterBool(cutter, renderOff)] &&
        cores[l].cutters == old(cores[l].cutters) + [CutterItem(cutter, true, cores[l].name)]
      invariant forall l :: j <= l < |cores| ==> cores[l].modifiers == old(cores[l].modifiers) && cores[l].cutters == old(cores[l].cutters)
    {
      var core := cores[j];
      core.AddModifier(CutterBool(cutter, renderOff));
      core.AddCutterItem(CutterItem(cutter, true, core.name));
      j := j + 1;
    }
  }

  /** The per-cutter settings of the registration loop, for every cutter. */
  method MarkCutters(cutters: seq<Obj>, baseName: string, disp: Display, mark: bool)
    modifies (set c | c in cutters)`parent, (set c | c in cutters)`display
    modifies (set c | c in cutters)`hideViewport, (set c | c in cutters)`geometryType
    ensures forall j :: 0 <= j < |cutters| ==>
      cutters[j].parent == baseName && cutters[j].display == disp && cutters[j].hideViewport &&
      cutters[j].geometryType == (if mark then Cutter else old(cutters[j].geometryType))
  {
    var i := 0;
    while i < |cutters|
      invariant 0 <= i <= |cutters|
      invariant forall j :: 0 <= j < i ==>
        cutters[j].parent == baseName && cutters[j].display == disp && cutters[j].hideViewport
      invariant mark ==> forall j :: 0 <= j < i ==> cutters[j].geometryType == Cutter
      invariant !mark ==> forall j :: 0 <= j < |cutters| ==> cutters[j].geometryType == old(cutters[j].geometryType)
    {
      cutters[i].MarkCutter(baseName, disp, mark);
      i := i + 1;
    }
  }

  /** The booleans and collection entries of the registration loop, for every cutter name. */
  method AddCuttersToCores(names: seq<string>, cores: seq<Obj>, renderOff: bool)
    requires Distinct(cores)
    modifies (set k | k in cores)`modifiers, (set k | k in cores)`cutters
    ensures forall j :: 0 <= j < |cores| ==>
      cores[j].modifiers == old(cores[j].modifiers) + CutterBools(names, renderOff) &&
      cores[j].cutters == old(cores[j].cutters) + CutterItems(names, cores[j].name)
  {
    var i := 0;
    while i < |names|
      invariant 0 <= i <= |names|
      invariant forall j :: 0 <= j < |cores| ==>
        cores[j].modifiers == old(cores[j].modifiers) + CutterBools(names[..i], renderOff) &&
        cores[j].cutters == old(cores[j].cutters) + CutterItems(names[..i], cores[j].name)
    {
      AddCutterToCores(names[i], cores, renderOff);
      CutterListsSnoc(names, i, renderOff);
      i := i + 1;
    }
    assert names[..i] == names;
  }

  /**
   * The loop that registers wall cutters on the cores: each cutter is
   * parented to the base, displayed as `disp` and hidden (and, where `mark`,
   * tagged as a cutter); every core gets, per cutter, one DIFFERENCE boolean
   * named after it (render disabled where `renderOff`) and one collection
   * entry in use, parented to that core. The cutter settings and the core
   * additions touch disjoint fields, so they are made in two passes.
   */
  method RegisterWallCutters(cutters: seq<Obj>, cores: seq<Obj>, baseName: string, disp: Display, renderOff: bool, mark: bool)
    requires Distinct(cores)
    modifies (set c | c in cutters)`parent, (set c | c in cutters)`display
    modifies (set c | c in cutters)`hideViewport, (set c | c in cutters)`geometryType
    modifies (set k | k in cores)`modifiers, (set k | k in cores)`cutters
    ensures forall j :: 0 <= j < |cutters| ==>
      cutters[j].parent == baseName && cutters[j].display == disp && cutters[j].hideViewport &&
      cutters[j].geometryType == (if mark then Cutter else old(cutters[j].geometryType))
    ensures forall j :: 0 <= j < |cores| ==>
      cores[j].modifiers == old(cores[j].modifiers) + CutterBools(old(NamesOf(cutters)), renderOff) &&
      cores[j].cutters == old(cores[j].cutters) + CutterItems(old(NamesOf(cutters)), cores[j].name)
  {
    var names := NamesOf(cutters);
    MarkCutters(cutters, baseName, disp, mark);
    AddCuttersToCores(names, cores, renderOff);
  }

  /** The registration loop run on a preview core and its displacement copy. */
  method RegisterOnCores(cutters: seq<Obj>, preview: Obj, displacement: Obj, baseName: string, disp: Display, renderOff: bool, mark: bool)
    requires preview != displacement
    modifies (set c | c in cutters)`parent, (set c | c in cutters)`display
    modifies (set c | c in cutters)`hideViewport, (set c | c in cutters)`geometryType
    modifies preview`modifiers, preview`cutters, displacement`modifiers, displacement`cutters
    ensures forall j :: 0 <= j < |cutters| ==>
      cutters[j].parent == baseName && cutters[j].display == disp && cutters[j].hideViewport &&
      cutters[j].geometryType == (if mark then Cutter else old(cutters[j].geometryType))
    ensures var names := old(NamesOf(cutters));
      preview.modifiers == old(preview.modifiers) + CutterBools(names, renderOff) &&
      preview.cutters == old(preview.cutters) + CutterItems(names, preview.name) &&
      displacement.modifiers == old(displacement.modifiers) + CutterBools(names, renderOff) &&
      displacement.cutters == old(displacement.cutters) + CutterItems(names, displacement.name)
  {
    var cores := [preview, displacement];
    RegisterWallCutters(cutters, cores, baseName, disp, renderOff, mark);
    assert cores[0] == preview && cores[1] == displacement;
  }

  /** A list's names are as recorded while no object in it is renamed. */
  lemma NamesUnchanged(objs: seq<Obj>, names: seq<string>)
    requires |names| == |objs| && forall i :: 0 <= i < |objs| ==> objs[i].name == names[i]
    ensures NamesOf(objs) == names
  {
  }

  /** The registration loop on both cores, after which the displacement core is hidden. */
  method RegisterOnCoresAndHide(cutters: seq<Obj>, preview: Obj, displacement: Obj, baseName: string, disp: Display,
                                renderOff: bool, mark: bool)
    requires preview != displacement
    modifies (set c | c in cutters)`parent, (set c | c in cutters)`display
    modifies (set c | c in cutters)`hideViewport, (set c | c in cutters)`geometryType
    modifies preview`modifiers, preview`cutters, displacement`modifiers, displacement`cutters, displacement`hideViewport
    ensures forall j :: 0 <= j < |cutters| ==>
      cutters[j].parent == baseName && cutters[j].display == disp && cutters[j].hideViewport &&
      cutters[j].geometryType == (if mark then Cutter else old(cutters[j].geometryType))
    ensures var names := NamesOf(cutters);
      preview.modifiers == old(preview.modifiers) + CutterBools(names, renderOff) &&
      preview.cutters == old(preview.cutters) + CutterItems(names, preview.name) &&
      displacement.modifiers == old(displacement.modifiers) + CutterBools(names, renderOff) &&
      displacement.cutters == old(displacement.cutters) + CutterItems(names, displacement.name)
    ensures displacement.hideViewport
  {
    ghost var names := NamesOf(cutters);
    RegisterOnCores(cutters, preview, displacement, baseName, disp, renderOff, mark);
    NamesUnchanged(cutters, names);
    displacement.hideViewport := true;
    NamesUnchanged(cutters, names);
  }
}
