/**
 * Mesh objects as the displacement operators see them: which material each
 * vertex carries, the vertex groups, the material slots, the MakeTile
 * collections of displacement and preview materials, the modifier stack and
 * the few properties the operators read and write.
 *
 * Materials are identified by name. Material assignment is modelled per
 * vertex rather than per face.
 */
module MeshObjects {
  import opened Common
  import opened Objects

  /** The vertex group the displacement modifier is restricted to. */
  const DispGroup: string := "disp_mod_vert_group"

  /** An entry of `preview_materials`: a vertex group and the material it had, if any. */
  datatype PreviewMaterial = PreviewMaterial(vertexGroup: string, material: Option<string>)

  /** The vertices of a group; a group that does not exist has none. */
  function GroupVerts(groups: map<string, set<int>>, group: string): set<int>
  {
    if group in groups then groups[group] else {}
  }

  /** The vertices carrying a material (`get_verts_with_material`). */
  function VertsWith(vm: map<int, string>, material: string): (r: set<int>)
    ensures forall v :: v in r <==> v in vm && vm[v] == material
  {
    set v | v in vm && vm[v] == material
  }

  /**
   * What `assign_mat_to_vert_group` does to the materials of the vertices
   * (a helper that is not part of this model; this is its assumed
   * contract): every vertex of the mesh in the group gets the material.
   */
  function Painted(vm: map<int, string>, verts: set<int>, material: string): (r: map<int, string>)
    ensures r.Keys == vm.Keys
    ensures forall v :: v in vm ==> r[v] == (if v in verts then material else vm[v])
  {
    map v | v in vm :: if v in verts then material else vm[v]
  }

  /** The material slots after a material is given one, if it has none. */
  function AddSlot(slots: seq<string>, material: string): (r: seq<string>)
    ensures material in r && (forall m :: m in r <==> m in slots || m == material)
    ensures |slots| <= |r| <= |slots| + 1 && r[..|slots|] == slots
  {
    if material in slots then slots else slots + [material]
  }

  class MeshObj {
    var name: string
    var isMesh: bool
    /** The material of each vertex of the mesh. */
    var vertMaterial: map<int, string>
    var vertexGroups: map<string, set<int>>
    /** `data.materials`: the material slots, in order. */
    var materialSlots: seq<string>
    /** `disp_materials_collection`: the materials to bake, in order. */
    var dispMaterials: seq<string>
    var previewMaterials: seq<PreviewMaterial>
    var modifiers: seq<Modifier>
    var dispModName: string
    var subsurfModName: string
    /** The custom property 'disp_dir', where present. */
    var dispDir: Option<string>
    /** The custom property 'disp_strength'. */
    var dispStrength: real
    var hideViewport: bool
    var adaptiveSubdivision: bool
    var geometryType: GeometryType

    /**
     * `assign_mat_to_vert_group` (assumed contract): the group's vertices
     * get the material, which gets a slot if it has none.
     */
    method AssignMatToVertGroup(group: string, material: string)
      modifies this`vertMaterial, this`materialSlots
      ensures vertMaterial == Painted(old(vertMaterial), GroupVerts(vertexGroups, group), material)
      ensures materialSlots == AddSlot(old(materialSlots), material)
    {
      vertMaterial := Painted(vertMaterial, GroupVerts(vertexGroups, group), material);
      if material !in materialSlots {
        materialSlots := materialSlots + [material];
      }
    }
  }
}
