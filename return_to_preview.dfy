/**
 * `operators/return_to_preview.py`: a displacement object goes back to its
 * preview state. The displacement modifier's strength drops to zero, the
 * vertices of 'disp_mod_vert_group' get the secondary material back and
 * then each stored preview material is painted back onto its vertex group,
 * the subdivision modifier moves to the end of the stack, adaptive
 * subdivision is switched on and the object is marked as a preview.
 */
module ReturnToPreview {
  import opened Common
  import opened Objects
  import opened MeshObjects

  /*** Painting the preview materials back ***/

  /** Whether a preview entry is painted back: not the displacement group, and with a material. */
  predicate Applies(e: PreviewMaterial)
  {
    e.vertexGroup != DispGroup && e.material.Some?
  }

  /** The vertex materials after painting the entries back in order. */
  function PaintEntries(vm: map<int, string>, groups: map<string, set<int>>, entries: seq<PreviewMaterial>): (r: map<int, string>)
    ensures r.Keys == vm.Keys
    decreases |entries|
  {
    if entries == [] then vm
    else
      var e := entries[|entries| - 1];
      var before := PaintEntries(vm, groups, entries[..|entries| - 1]);
      if Applies(e) then Painted(before, GroupVerts(groups, e.vertexGroup), e.material.value) else before
  }

  /** The material slots after painting the entries back in order. */
  function SlotEntries(slots: seq<string>, entries: seq<PreviewMaterial>): (r: seq<string>)
    ensures |slots| <= |r| && r[..|slots|] == slots
    ensures forall m :: m in r <==> m in slots || exists k :: 0 <= k < |entries| && Applies(entries[k]) && entries[k].material == Some(m)
    decreases |entries|
  {
    if entries == [] then slots
    else
      var e := entries[|entries| - 1];
      var before := SlotEntries(slots, entries[..|entries| - 1]);
      assert forall k :: 0 <= k < |entries| - 1 ==> entries[..|entries| - 1][k] == entries[k];
      if Applies(e) then
        var after := AddSlot(before, e.material.value);
        assert after[..|slots|] == after[..|before|][..|slots|];
        after
      else before
  }

  /**
   * The material a vertex gets from the entries: that of the last entry
   * that is painted back and whose group holds the vertex, if any.
   */
  function LastCovering(groups: map<string, set<int>>, entries: seq<PreviewMaterial>, v: int): (r: Option<string>)
    ensures r.Some? <==> exists k :: 0 <= k < |entries| && Applies(entries[k]) && v in GroupVerts(groups, entries[k].vertexGroup)
    decreases |entries|
  {
    if entries == [] then None
    else
      var e := entries[|entries| - 1];
      var init := entries[..|entries| - 1];
      assert forall k :: 0 <= k < |init| ==> init[k] == entries[k];
      if Applies(e) && v in GroupVerts(groups, e.vertexGroup) then e.material
      else LastCovering(groups, init, v)
  }

  /** Later entries win: each vertex ends with its last covering entry's material, or keeps its own. */
  lemma {:induction false} PaintEntriesLastWins(vm: map<int, string>, groups: map<string, set<int>>,
                                                entries: seq<PreviewMaterial>, v: int)
    requires v in vm
    ensures PaintEntries(vm, groups, entries)[v] ==
      match LastCovering(groups, entries, v)
      case Some(m) => m
      case None => vm[v]
    decreases |entries|
  {
    if entries != [] {
      PaintEntriesLastWins(vm, groups, entries[..|entries| - 1], v);
    }
  }

  /**
   * A vertex of 'disp_mod_vert_group' that no preview entry covers keeps
   * the secondary material it was given first.
   */
  lemma UncoveredKeepSecondary(vm: map<int, string>, groups: map<string, set<int>>,
                               entries: seq<PreviewMaterial>, secondary: string, v: int)
    requires v in vm && v in GroupVerts(groups, DispGroup) && LastCovering(groups, entries, v).None?
    ensures PaintEntries(Painted(vm, GroupVerts(groups, DispGroup), secondary), groups, entries)[v] == secondary
  {
    PaintEntriesLastWins(Painted(vm, GroupVerts(groups, DispGroup), secondary), groups, entries, v);
  }

  /*** The modifier stack ***/

  /** `modifier_move_to_index(..., index=len(modifiers) - 1)`: the k-th modifier moves to the end. */
  function MoveToEnd(mods: seq<Modifier>, k: nat): (r: seq<Modifier>)
    requires k < |mods|
    ensures |r| == |mods| && r[|r| - 1] == mods[k]
    ensures multiset(r) == multiset(mods)
    ensures forall i :: 0 <= i < k ==> r[i] == mods[i]
    ensures forall i :: k <= i < |mods| - 1 ==> r[i] == mods[i + 1]
  {
    assert mods == mods[..k] + [mods[k]] + mods[k + 1..];
    mods[..k] + mods[k + 1..] + [mods[k]]
  }

  /** Moving the last modifier to the end changes nothing. */
  lemma MoveLastToEnd(mods: seq<Modifier>)
    requires mods != []
    ensures MoveToEnd(mods, |mods| - 1) == mods
  {
  }

  /** The stack after the subdivision modifier moves to the end; a missing one leaves it as it is. */
  function SubsurfLast(mods: seq<Modifier>, subsurfName: string): (r: seq<Modifier>)
    ensures multiset(r) == multiset(mods)
    ensures FindModifier(mods, subsurfName).Some? ==> r[|r| - 1] == mods[FindModifier(mods, subsurfName).value]
    ensures FindModifier(mods, subsurfName).None? ==> r == mods
  {
    match FindModifier(mods, subsurfName)
    case None => mods
    case Some(k) => MoveToEnd(mods, k)
  }

  /** Once the only modifier of that name is last, moving it again changes nothing. */
  lemma SubsurfLastIdempotent(mods: seq<Modifier>, subsurfName: string)
    requires forall i, j :: 0 <= i < j < |mods| && mods[i].name == subsurfName ==> mods[j].name != subsurfName
    ensures SubsurfLast(SubsurfLast(mods, subsurfName), subsurfName) == SubsurfLast(mods, subsurfName)
  {
    var once := SubsurfLast(mods, subsurfName);
    match FindModifier(mods, subsurfName)
    case None =>
    case Some(k) =>
      var j := FindModifier(once, subsurfName);
      assert once[|once| - 1].name == subsurfName;
      assert forall i :: 0 <= i < |once| - 1 ==> once[i].name != subsurfName;
      assert j == Some(|once| - 1);
      MoveLastToEnd(once);
  }

  /** The displacement modifier with its strength set to zero. */
  function Flattened(m: Modifier): (r: Modifier)
    requires m.kind.Displace?
    ensures r.name == m.name && r.kind == Displace(m.kind.midLevel, 0.0)
  {
    m.(kind := m.kind.(strength := 0.0))
  }

  /** Distinct objects in a sequence. */
  predicate DistinctObjs(objs: seq<MeshObj>)
  {
    forall i, j :: 0 <= i < j < |objs| ==> objs[i] != objs[j]
  }

  /** What the operator acts on: a mesh in the displacement state. */
  predicate Eligible(isMesh: bool, geometryType: GeometryType)
  {
    isMesh && geometryType == Displacement
  }

  /**
   * The stack with the displacement modifier's strength at zero. Looking it
   * up by name raises KeyError when there is none, and setting its strength
   * raises when it is not a displacement modifier: None.
   */
  function FlattenDisp(mods: seq<Modifier>, dispName: string): (r: Option<seq<Modifier>>)
    ensures r.Some? <==> FindModifier(mods, dispName).Some? && mods[FindModifier(mods, dispName).value].kind.Displace?
    ensures r.Some? ==> |r.value| == |mods| && (forall i :: 0 <= i < |mods| ==> r.value[i].name == mods[i].name)
    ensures r.Some? ==> forall i :: 0 <= i < |mods| ==>
      r.value[i] == if i == FindModifier(mods, dispName).value then Flattened(mods[i]) else mods[i]
  {
    match FindModifier(mods, dispName)
    case None => None
    case Some(k) => if mods[k].kind.Displace? then Some(mods[k := Flattened(mods[k])]) else None
  }

  /**
   * `set_to_preview`. When the displacement modifier cannot be flattened
   * the call raises (`ok` false) before anything has changed. Moving a
   * subdivision modifier that is not on the stack is cancelled and leaves
   * the stack as it is.
   */
  method SetToPreview(obj: MeshObj, secondary: string) returns (ok: bool)
    modifies obj`modifiers, obj`vertMaterial, obj`materialSlots, obj`adaptiveSubdivision, obj`geometryType
    ensures ok <==> FlattenDisp(old(obj.modifiers), obj.dispModName).Some?
    ensures !ok ==> (obj.modifiers == old(obj.modifiers) && obj.vertMaterial == old(obj.vertMaterial)
      && obj.materialSlots == old(obj.materialSlots)
      && obj.adaptiveSubdivision == old(obj.adaptiveSubdivision) && obj.geometryType == old(obj.geometryType))
    ensures ok ==> obj.modifiers == SubsurfLast(FlattenDisp(old(obj.modifiers), obj.dispModName).value, obj.subsurfModName)
    ensures ok ==> (obj.vertMaterial ==
      PaintEntries(Painted(old(obj.vertMaterial), GroupVerts(obj.vertexGroups, DispGroup), secondary),
                   obj.vertexGroups, obj.previewMaterials))
    ensures ok ==> obj.materialSlots == SlotEntries(AddSlot(old(obj.materialSlots), secondary), obj.previewMaterials)
    ensures ok ==> obj.adaptiveSubdivision && obj.geometryType == Preview
  {
    var flat := FlattenDisp(obj.modifiers, obj.dispModName);
    if flat.None? {
      return false;
    }
    ghost var groups, entries, vm0, slots0 := obj.vertexGroups, obj.previewMaterials, obj.vertMaterial, obj.materialSlots;
    RestoreMaterials(obj, secondary);
    ghost var vm1, slots1 := obj.vertMaterial, obj.materialSlots;
    assert vm1 == PaintEntries(Painted(vm0, GroupVerts(groups, DispGroup), secondary), groups, entries);
    assert slots1 == SlotEntries(AddSlot(slots0, secondary), entries);
    PreviewStack(obj, SubsurfLast(flat.value, obj.subsurfModName));
    assert obj.vertMaterial == vm1 && obj.materialSlots == slots1;
    assert obj.vertexGroups == groups && obj.previewMaterials == entries;
    ok := true;
  }

  /** The modifier stack, adaptive subdivision and geometry type of a preview object. */
  method PreviewStack(obj: MeshObj, stack: seq<Modifier>)
    modifies obj`modifiers, obj`adaptiveSubdivision, obj`geometryType
    ensures obj.modifiers == stack && obj.adaptiveSubdivision && obj.geometryType == Preview
  {
    obj.modifiers := stack;
    obj.adaptiveSubdivision := true;
    obj.geometryType := Preview;
  }

  /** The secondary material over 'disp_mod_vert_group', then the preview materials over their groups. */
  method RestoreMaterials(obj: MeshObj, secondary: string)
    modifies obj`vertMaterial, obj`materialSlots
    ensures obj.vertMaterial ==
      PaintEntries(Painted(old(obj.vertMaterial), GroupVerts(obj.vertexGroups, DispGroup), secondary),
                   obj.vertexGroups, obj.previewMaterials)
    ensures obj.materialSlots == SlotEntries(AddSlot(old(obj.materialSlots), secondary), obj.previewMaterials)
  {
    obj.AssignMatToVertGroup(DispGroup, secondary);
    PaintPreviewMaterials(obj);
  }

  /** The loop over `preview_materials`. */
  method PaintPreviewMaterials(obj: MeshObj)
    modifies obj`vertMaterial, obj`materialSlots
    ensures obj.vertMaterial == PaintEntries(old(obj.vertMaterial), obj.vertexGroups, obj.previewMaterials)
    ensures obj.materialSlots == SlotEntries(old(obj.materialSlots), obj.previewMaterials)
  {
    var entries := obj.previewMaterials;
    var i := 0;
    while i < |entries|
      invariant 0 <= i <= |entries|
      invariant obj.vertMaterial == PaintEntries(old(obj.vertMaterial), obj.vertexGroups, entries[..i])
      invariant obj.materialSlots == SlotEntries(old(obj.materialSlots), entries[..i])
    {
      assert entries[..i + 1][..i] == entries[..i];
      var e := entries[i];
      if e.vertexGroup != DispGroup {
        if e.material.Some? {
          obj.AssignMatToVertGroup(e.vertexGroup, e.material.value);
        }
      }
      i := i + 1;
    }
    assert entries[..i] == entries;
  }

  /** What a `set_to_preview` that went through leaves on `obj`, against its state before. */
  twostate predicate PreviewedFrom(obj: MeshObj, secondary: string)
    reads obj
  {
    FlattenDisp(old(obj.modifiers), obj.dispModName).Some?
    && obj.modifiers == SubsurfLast(FlattenDisp(old(obj.modifiers), obj.dispModName).value, obj.subsurfModName)
    && obj.vertMaterial ==
         PaintEntries(Painted(old(obj.vertMaterial), GroupVerts(obj.vertexGroups, DispGroup), secondary),
                      obj.vertexGroups, obj.previewMaterials)
    && obj.materialSlots == SlotEntries(AddSlot(old(obj.materialSlots), secondary), obj.previewMaterials)
    && obj.adaptiveSubdivision && obj.geometryType == Preview
  }

  /**
   * `MT_OT_Return_To_Preview.execute`: every selected mesh in the
   * displacement state is set to preview, in order; the others are left
   * alone. A `set_to_preview` that raises ends the operator there (`ok`
   * false): the objects before it are done, it and those after it are
   * unchanged.
   */
  method Execute(objs: seq<MeshObj>, secondary: string) returns (ok: bool, failed: nat)
    requires DistinctObjs(objs)
    modifies objs
    ensures ok ==> failed == |objs|
    ensures !ok ==> failed < |objs| && Eligible(objs[failed].isMesh, old(objs[failed].geometryType))
    ensures !ok ==> FlattenDisp(old(objs[failed].modifiers), objs[failed].dispModName).None?
    ensures forall i :: 0 <= i < |objs| && i < failed && Eligible(objs[i].isMesh, old(objs[i].geometryType)) ==>
      PreviewedFrom(objs[i], secondary)
    ensures forall i :: 0 <= i < |objs| && (failed <= i || !Eligible(objs[i].isMesh, old(objs[i].geometryType))) ==>
      unchanged(objs[i])
    ensures ok ==> forall i :: 0 <= i < |objs| ==> !Eligible(objs[i].isMesh, objs[i].geometryType)
  {
    var i := 0;
    while i < |objs|
      invariant 0 <= i <= |objs|
      invariant forall j :: 0 <= j < i && Eligible(objs[j].isMesh, old(objs[j].geometryType)) ==>
        PreviewedFrom(objs[j], secondary)
      invariant forall j :: 0 <= j < |objs| && (i <= j || !Eligible(objs[j].isMesh, old(objs[j].geometryType))) ==>
        unchanged(objs[j])
    {
      var obj := objs[i];
      if obj.isMesh && obj.geometryType == Displacement {
        var done := SetToPreview(obj, secondary);
        if !done {
          return false, i;
        }
      }
      i := i + 1;
    }
    return true, i;
  }

  /**
   * After a run of the operator that went through, as `Execute` states it
   * (every eligible object previewed, every other one unchanged), no
   * selected object is eligible, so a second run changes nothing.
   */
  twostate lemma NothingLeftToPreview(objs: seq<MeshObj>, secondary: string)
    requires forall i :: 0 <= i < |objs| && Eligible(objs[i].isMesh, old(objs[i].geometryType)) ==>
      PreviewedFrom(objs[i], secondary)
    requires forall i :: 0 <= i < |objs| && !Eligible(objs[i].isMesh, old(objs[i].geometryType)) ==>
      unchanged(objs[i])
    ensures forall i :: 0 <= i < |objs| ==> !Eligible(objs[i].isMesh, objs[i].geometryType)
  {
  }
}
