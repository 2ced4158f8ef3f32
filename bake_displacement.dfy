/**
 * The displacement operators of `operators/bakedisplacement.py`: assigning
 * a material to a vertex group and registering it for baking, baking the
 * preview materials to a displacement map with the render settings saved
 * and restored around the bake, and setting up the displacement modifier
 * afterwards.
 *
 * The shader node rewiring, the bake itself and the image are host
 * operations; only the state the operators keep is modelled.
 */
module BakeDisplacement {
  import opened Common
  import opened Objects
  import opened MeshObjects

  /*** Registering materials ***/

  /**
   * The primary material joins the displacement materials unless it is
   * already there or is the secondary material.
   */
  function Register(materials: seq<string>, primary: string, secondary: string): (r: seq<string>)
    ensures |materials| <= |r| <= |materials| + 1 && r[..|materials|] == materials
    ensures forall m :: m in r <==> m in materials || (m == primary && primary != secondary)
    ensures Distinct(materials) ==> Distinct(r)
  {
    if primary !in materials && primary != secondary then materials + [primary] else materials
  }

  /** Registering the same material again adds nothing. */
  lemma RegisterIdempotent(materials: seq<string>, primary: string, secondary: string)
    ensures Register(Register(materials, primary, secondary), primary, secondary) == Register(materials, primary, secondary)
  {
  }

  /** The union, over the materials, of the vertices carrying each. */
  function TexturedVerts(vm: map<int, string>, materials: seq<string>): (r: set<int>)
    ensures forall v :: v in r <==> v in vm && vm[v] in materials
    decreases |materials|
  {
    if materials == [] then {}
    else
      var init := materials[..|materials| - 1];
      assert forall m :: m in materials <==> m in init || m == materials[|materials| - 1];
      VertsWith(vm, materials[|materials| - 1]) + TexturedVerts(vm, init)
  }

  /** A set with the membership of `TexturedVerts` is that set. */
  lemma SameTextured(verts: set<int>, vm: map<int, string>, materials: seq<string>)
    requires forall v :: v in verts <==> v in vm && vm[v] in materials
    ensures verts == TexturedVerts(vm, materials)
  {
    var t := TexturedVerts(vm, materials);
    assert forall v :: v in verts <==> v in t;
  }

  /** The loop that gathers the textured vertices. */
  method CollectTextured(vm: map<int, string>, materials: seq<string>) returns (verts: set<int>)
    ensures forall v :: v in verts <==> v in vm && vm[v] in materials
  {
    verts := {};
    var i := 0;
    while i < |materials|
      invariant 0 <= i <= |materials|
      invariant forall v :: v in verts <==> v in vm && vm[v] in materials[..i]
    {
      assert forall m :: m in materials[..i + 1] <==> m in materials[..i] || m == materials[i];
      verts := VertsWith(vm, materials[i]) + verts;
      i := i + 1;
    }
    assert materials[..i] == materials;
  }

  /**
   * `MT_OT_Assign_Material_To_Vert_Group.execute` as written: the active
   * group of `obj` gets the primary material, which is registered on the
   * linked displacement object `disp`, and the displacement object's
   * 'disp_mod_vert_group' is cleared and refilled with exactly the vertices
   * of `obj` carrying a registered material. Where `disp` has no such group,
   * a group of that name is made on `obj` instead and the next line uses a
   * variable never bound, which raises (`ok` false).
   */
  method AssignMaterialAsWritten(obj: MeshObj, disp: MeshObj, group: string, primary: string, secondary: string)
    returns (ok: bool)
    requires obj != disp
    modifies obj`vertMaterial, obj`materialSlots, obj`vertexGroups, disp`dispMaterials, disp`vertexGroups
    ensures obj.vertMaterial == Painted(old(obj.vertMaterial), GroupVerts(old(obj.vertexGroups), group), primary)
    ensures obj.materialSlots == AddSlot(old(obj.materialSlots), primary)
    ensures disp.dispMaterials == Register(old(disp.dispMaterials), primary, secondary)
    ensures ok <==> DispGroup in old(disp.vertexGroups)
    ensures ok ==> disp.vertexGroups == old(disp.vertexGroups)[DispGroup := TexturedVerts(obj.vertMaterial, disp.dispMaterials)]
    ensures ok ==> obj.vertexGroups == old(obj.vertexGroups)
    ensures !ok ==> disp.vertexGroups == old(disp.vertexGroups) && obj.vertexGroups == old(obj.vertexGroups)[DispGroup := {}]
  {
    var textured := PaintAndRegister(obj, disp, group, primary, secondary);
    if DispGroup in disp.vertexGroups {
      disp.vertexGroups := disp.vertexGroups[DispGroup := {}];
      assert disp.vertexGroups[DispGroup] + textured == textured;
      disp.vertexGroups := disp.vertexGroups[DispGroup := disp.vertexGroups[DispGroup] + textured];
      ok := true;
    } else {
      // taken to be a new, empty group; on a name `obj` already uses, the host would add 'disp_mod_vert_group.001'
      obj.vertexGroups := obj.vertexGroups[DispGroup := {}];
      ok := false;
    }
  }

  /**
   * The part of the operator both versions share: paint the group, register
   * the primary material and gather the textured vertices.
   */
  method PaintAndRegister(obj: MeshObj, disp: MeshObj, group: string, primary: string, secondary: string)
    returns (textured: set<int>)
    requires obj != disp
    modifies obj`vertMaterial, obj`materialSlots, disp`dispMaterials
    ensures obj.vertMaterial == Painted(old(obj.vertMaterial), GroupVerts(obj.vertexGroups, group), primary)
    ensures obj.materialSlots == AddSlot(old(obj.materialSlots), primary)
    ensures disp.dispMaterials == Register(old(disp.dispMaterials), primary, secondary)
    ensures textured == TexturedVerts(obj.vertMaterial, disp.dispMaterials)
  {
    obj.AssignMatToVertGroup(group, primary);
    var materials := disp.dispMaterials;
    if primary !in materials && primary != secondary {
      disp.dispMaterials := disp.dispMaterials + [primary];
      materials := materials + [primary];
    }
    textured := CollectTextured(obj.vertMaterial, materials);
    SameTextured(textured, obj.vertMaterial, materials);
  }

  /**
   * The same operator as evidently intended: where the displacement object
   * has no 'disp_mod_vert_group', the group is made on it and filled, so
   * either way it ends up holding exactly the textured vertices.
   */
  method AssignMaterial(obj: MeshObj, disp: MeshObj, group: string, primary: string, secondary: string)
    requires obj != disp
    modifies obj`vertMaterial, obj`materialSlots, disp`dispMaterials, disp`vertexGroups
    ensures obj.vertMaterial == Painted(old(obj.vertMaterial), GroupVerts(obj.vertexGroups, group), primary)
    ensures obj.materialSlots == AddSlot(old(obj.materialSlots), primary)
    ensures disp.dispMaterials == Register(old(disp.dispMaterials), primary, secondary)
    ensures disp.vertexGroups == old(disp.vertexGroups)[DispGroup := TexturedVerts(obj.vertMaterial, disp.dispMaterials)]
    ensures forall v :: v in disp.vertexGroups[DispGroup] <==> v in obj.vertMaterial && obj.vertMaterial[v] in disp.dispMaterials
  {
    var textured := PaintAndRegister(obj, disp, group, primary, secondary);
    disp.vertexGroups := disp.vertexGroups[DispGroup := textured];
  }

  /**
   * `MT_OT_Remove_Material_From_Vert_Group.execute`: the active group of
   * the object gets the secondary material, which is given a slot first
   * when it has none.
   */
  method RemoveMaterial(obj: MeshObj, group: string, secondary: string)
    modifies obj`vertMaterial, obj`materialSlots
    ensures obj.vertMaterial == Painted(old(obj.vertMaterial), GroupVerts(obj.vertexGroups, group), secondary)
    ensures forall v :: v in GroupVerts(obj.vertexGroups, group) && v in obj.vertMaterial ==> obj.vertMaterial[v] == secondary
    ensures obj.materialSlots == AddSlot(old(obj.materialSlots), secondary)
  {
    if secondary !in obj.materialSlots {
      obj.materialSlots := obj.materialSlots + [secondary];
    }
    obj.AssignMatToVertGroup(group, secondary);
  }

  /*** Baking ***/

  /** The sign rule for 'disp_strength': negated only when 'disp_dir' is 'neg'. */
  function DispStrength(dispDir: Option<string>, strength: real): (r: real)
    ensures dispDir == Some("neg") ==> r == -strength
    ensures dispDir != Some("neg") ==> r == strength
  {
    match dispDir
    case None => strength
    case Some(d) => if d == "neg" then -strength else strength
  }

  /** The render settings the bake saves and restores. */
  datatype Settings = Settings(engine: string, samples: int, tileX: int, tileY: int, bakeType: string)

  /** The settings the bake runs with: a one-sample Cycles EMIT bake at the resolution. */
  function BakeSetup(resolution: int): Settings
  {
    Settings("CYCLES", 1, resolution, resolution, "EMIT")
  }

  /** The render and bake settings the bake changes. */
  class RenderSettings {
    var engine: string
    var samples: int
    var tileX: int
    var tileY: int
    var bakeType: string
    var useSelectedToActive: bool
    var cageExtrusion: real
    var margin: int

    function Saved(): Settings
      reads this
    {
      Settings(engine, samples, tileX, tileY, bakeType)
    }

    /** Write the saved settings back, field by field. */
    method Restore(s: Settings)
      modifies this`engine, this`samples, this`tileX, this`tileY, this`bakeType
      ensures Saved() == s
    {
      samples := s.samples;
      tileX := s.tileX;
      tileY := s.tileY;
      bakeType := s.bakeType;
      engine := s.engine;
    }

    /** Projection from the selected preview onto the active object. */
    method SetProjection()
      modifies this`useSelectedToActive, this`cageExtrusion, this`margin
      ensures useSelectedToActive && cageExtrusion == 1.0 && margin == 4
    {
      useSelectedToActive := true;
      cageExtrusion := 1.0;
      margin := 4;
    }
  }

  /**
   * The material loop of `bake_displacement_map`, as far as it touches the
   * object: each material's strength (from `strengthOf`) is stored on the
   * object in turn, so the last material's strength, signed by the rule,
   * is what remains.
   */
  method StoreStrengths(disp: MeshObj, materials: seq<string>, strengthOf: string -> real)
    modifies disp`dispStrength
    ensures materials != [] ==> disp.dispStrength == DispStrength(disp.dispDir, strengthOf(materials[|materials| - 1]))
    ensures materials == [] ==> disp.dispStrength == old(disp.dispStrength)
  {
    var i := 0;
    while i < |materials|
      invariant 0 <= i <= |materials|
      invariant i > 0 ==> disp.dispStrength == DispStrength(disp.dispDir, strengthOf(materials[i - 1]))
      invariant i == 0 ==> disp.dispStrength == old(disp.dispStrength)
    {
      var strength := strengthOf(materials[i]);
      if disp.dispDir.Some? {
        if disp.dispDir.value == "neg" {
          disp.dispStrength := -strength;
        } else {
          disp.dispStrength := strength;
        }
      } else {
        disp.dispStrength := strength;
      }
      i := i + 1;
    }
  }

  /** The slots left by popping index 0 while iterating over the slots with a list iterator. */
  function Survivors(slots: seq<string>): (r: seq<string>)
    ensures |r| == |slots| / 2
  {
    slots[(|slots| + 1) / 2..]
  }

  /**
   * `for material in materials: materials.pop(index=0)`: the iterator's
   * index advances while the list shrinks from the front, so the loop stops
   * halfway and the later half of the slots survives.
   */
  method PopWhileIterating(disp: MeshObj)
    modifies disp`materialSlots
    ensures disp.materialSlots == Survivors(old(disp.materialSlots))
  {
    var i := 0;
    while i < |disp.materialSlots|
      invariant 0 <= i && 2 * i <= |old(disp.materialSlots)| + 1
      invariant disp.materialSlots == old(disp.materialSlots)[i..]
    {
      disp.materialSlots := disp.materialSlots[1..];
      i := i + 1;
    }
  }

  /** An object with two or more slots keeps some of them through the loop. */
  lemma SurvivorsKeepsSlots(slots: seq<string>)
    requires |slots| >= 2
    ensures Survivors(slots) != [] && Survivors(slots)[|Survivors(slots)| - 1] == slots[|slots| - 1]
  {
  }

  /** Empty the slots by the loop above, then add one material. */
  method ReplaceSlots(disp: MeshObj, material: string)
    modifies disp`materialSlots
    ensures disp.materialSlots == Survivors(old(disp.materialSlots)) + [material]
  {
    PopWhileIterating(disp);
    disp.materialSlots := disp.materialSlots + [material];
  }

  /**
   * `bake_displacement_map`: the render settings are saved, switched to a
   * one-sample Cycles EMIT bake at the given tile size and restored after the
   * bake; the bake projects selected-to-active with cage extrusion 1 and
   * margin 4, with both objects shown. The slots are emptied (by the loop
   * above) around the first displacement material for the bake and around
   * the secondary material after it. With no displacement material, taking
   * the first raises IndexError (`ok` false) before the settings are
   * restored. The image is named after the object.
   */
  method BakeDisplacementMap(render: RenderSettings, disp: MeshObj, preview: MeshObj, resolution: int,
                             strengthOf: string -> real, secondary: string)
    returns (ok: bool, image: string)
    requires disp != preview
    modifies render, disp`dispStrength, disp`materialSlots, disp`hideViewport, preview`hideViewport
    ensures image == disp.name + ".image"
    ensures ok <==> disp.dispMaterials != []
    ensures ok ==> render.Saved() == old(render.Saved())
    ensures !ok ==> render.Saved() == BakeSetup(resolution)
    ensures render.useSelectedToActive && render.cageExtrusion == 1.0 && render.margin == 4
    ensures disp.dispMaterials != [] ==>
      disp.dispStrength == DispStrength(disp.dispDir, strengthOf(disp.dispMaterials[|disp.dispMaterials| - 1]))
    ensures disp.dispMaterials == [] ==> disp.dispStrength == old(disp.dispStrength)
    ensures !preview.hideViewport && !disp.hideViewport
    ensures !ok ==> disp.materialSlots == Survivors(old(disp.materialSlots))
    ensures ok ==> (disp.materialSlots ==
      Survivors(Survivors(old(disp.materialSlots)) + [disp.dispMaterials[0]]) + [secondary])
  {
    var orig := render.Saved();
    render.Restore(BakeSetup(resolution));
    image := disp.name + ".image";
    StoreStrengths(disp, disp.dispMaterials, strengthOf);
    preview.hideViewport := false;
    disp.hideViewport := false;
    render.SetProjection();
    if disp.dispMaterials == [] {
      PopWhileIterating(disp);
      return false, image;
    }
    ReplaceSlots(disp, disp.dispMaterials[0]);
    ReplaceSlots(disp, secondary);
    render.Restore(orig);
    ok := true;
  }

  /** A modifier with its displacement settings replaced. */
  function WithDisplace(m: Modifier, midLevel: real, strength: real): Modifier
  {
    m.(kind := Displace(midLevel, strength))
  }

  /**
   * `MT_OT_Bake_Displacement.execute`: after the bake, the displacement
   * modifier (looked up by the object's 'disp_mod_name') gets mid level 0
   * and strength 0.1, the subdivision modifier gets the scene's levels, and
   * the preview object is hidden. A failed bake, a missing modifier, or a
   * named modifier of the wrong kind (whose displacement settings or levels
   * cannot be set) raises (`ok` false) and stops there, keeping what was
   * already set.
   * `preview` is the context object; the bake itself projects from the
   * displacement object's linked object, which is taken to be that same
   * preview object, as the two are linked to each other when a tile is made.
   */
  method BakeExecute(render: RenderSettings, preview: MeshObj, disp: MeshObj, resolution: int,
                     strengthOf: string -> real, secondary: string, subdivisions: int)
    returns (ok: bool)
    requires disp != preview
    modifies render, disp`dispStrength, disp`materialSlots, disp`hideViewport, disp`modifiers, preview`hideViewport
    ensures disp.dispMaterials != [] ==> render.Saved() == old(render.Saved())
    ensures disp.dispMaterials == [] ==> render.Saved() == BakeSetup(resolution)
    ensures render.useSelectedToActive && render.cageExtrusion == 1.0 && render.margin == 4
    ensures disp.dispMaterials != [] ==>
      disp.dispStrength == DispStrength(disp.dispDir, strengthOf(disp.dispMaterials[|disp.dispMaterials| - 1]))
    ensures disp.dispMaterials == [] ==> disp.dispStrength == old(disp.dispStrength)
    ensures disp.dispMaterials == [] ==> disp.materialSlots == Survivors(old(disp.materialSlots))
    ensures disp.dispMaterials != [] ==> (disp.materialSlots ==
      Survivors(Survivors(old(disp.materialSlots)) + [disp.dispMaterials[0]]) + [secondary])
    ensures ok ==> preview.hideViewport && !disp.hideViewport
    ensures !ok ==> !preview.hideViewport && !disp.hideViewport
    ensures disp.dispMaterials == [] ==> !ok && disp.modifiers == old(disp.modifiers)
    ensures disp.dispMaterials != [] ==>
      match FindModifier(old(disp.modifiers), disp.dispModName)
      case None => !ok && disp.modifiers == old(disp.modifiers)
      case Some(k) =>
        if !old(disp.modifiers)[k].kind.Displace? then !ok && disp.modifiers == old(disp.modifiers)
        else
          var afterDisp := old(disp.modifiers)[k := WithDisplace(old(disp.modifiers)[k], 0.0, 0.1)];
          match FindModifier(afterDisp, disp.subsurfModName)
          case None => !ok && disp.modifiers == afterDisp
          case Some(j) =>
            if !afterDisp[j].kind.Subsurf? then !ok && disp.modifiers == afterDisp
            else ok && disp.modifiers == afterDisp[j := afterDisp[j].(kind := Subsurf(subdivisions))]
  {
    disp.hideViewport := false;
    var baked, image := BakeDisplacementMap(render, disp, preview, resolution, strengthOf, secondary);
    if !baked {
      return false;
    }
    var k := FindModifier(disp.modifiers, disp.dispModName);
    if k.None? || !disp.modifiers[k.value].kind.Displace? {
      return false;
    }
    disp.modifiers := disp.modifiers[k.value := WithDisplace(disp.modifiers[k.value], 0.0, 0.1)];
    var j := FindModifier(disp.modifiers, disp.subsurfModName);
    if j.None? || !disp.modifiers[j.value].kind.Subsurf? {
      return false;
    }
    disp.modifiers := disp.modifiers[j.value := disp.modifiers[j.value].(kind := Subsurf(subdivisions))];
    preview.hideViewport := true;
    ok := true;
  }
}
