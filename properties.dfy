/**
 * The property callbacks of `properties.py`: keeping the base the size of
 * the tile on the axes where proportionate scaling is on, the enum lists of
 * tile types and blueprints (sorted, and drawn from the first matching
 * entry of the tile defaults), picking the tile type for a blueprint,
 * applying the defaults stored under the selected blueprint, and the cutter
 * item toggle.
 *
 * Python sorts the enum tuples lexicographically, comparing strings by code
 * point; `sorted` is modelled by an insertion sort, which gives the same
 * list because a sorted permutation is unique under that order
 * (`SortedUnique`).
 */
module Properties {
  import opened Common
  import opened Objects

  /*** Ordering of enum items ***/

  /** One enum entry: identifier, label and (always empty) description. */
  datatype EnumItem = EnumItem(id: string, name: string, description: string)

  /** Python's `<=` on strings: lexicographic by code point. */
  predicate StrLe(a: string, b: string)
    decreases |a|
  {
    if a == [] then true
    else if b == [] then false
    else if a[0] != b[0] then a[0] < b[0]
    else StrLe(a[1..], b[1..])
  }

  lemma {:induction false} StrLeTotal(a: string, b: string)
    ensures StrLe(a, b) || StrLe(b, a)
    decreases |a|
  {
    if a != [] && b != [] && a[0] == b[0] {
      StrLeTotal(a[1..], b[1..]);
    }
  }

  lemma {:induction false} StrLeAntisymmetric(a: string, b: string)
    requires StrLe(a, b) && StrLe(b, a)
    ensures a == b
    decreases |a|
  {
    if a != [] && b != [] {
      StrLeAntisymmetric(a[1..], b[1..]);
      assert a == [a[0]] + a[1..] && b == [b[0]] + b[1..];
    }
  }

  lemma {:induction false} StrLeTransitive(a: string, b: string, c: string)
    requires StrLe(a, b) && StrLe(b, c)
    ensures StrLe(a, c)
    decreases |a|
  {
    if a != [] && b != [] && c != [] && a[0] == b[0] && b[0] == c[0] {
      StrLeTransitive(a[1..], b[1..], c[1..]);
    }
  }

  /** Python's `<=` on the enum tuples. */
  predicate ItemLe(x: EnumItem, y: EnumItem)
  {
    if x.id != y.id then StrLe(x.id, y.id)
    else if x.name != y.name then StrLe(x.name, y.name)
    else StrLe(x.description, y.description)
  }

  lemma ItemLeTotal(x: EnumItem, y: EnumItem)
    ensures ItemLe(x, y) || ItemLe(y, x)
  {
    StrLeTotal(x.id, y.id);
    StrLeTotal(x.name, y.name);
    StrLeTotal(x.description, y.description);
  }

  lemma ItemLeAntisymmetric(x: EnumItem, y: EnumItem)
    requires ItemLe(x, y) && ItemLe(y, x)
    ensures x == y
  {
    if x.id != y.id {
      StrLeAntisymmetric(x.id, y.id);
    } else if x.name != y.name {
      StrLeAntisymmetric(x.name, y.name);
    } else {
      StrLeAntisymmetric(x.description, y.description);
    }
  }

  lemma ItemLeTransitive(x: EnumItem, y: EnumItem, z: EnumItem)
    requires ItemLe(x, y) && ItemLe(y, z)
    ensures ItemLe(x, z)
  {
    if x.id != y.id {
      if y.id != z.id {
        StrLeTransitive(x.id, y.id, z.id);
        if x.id == z.id {
          StrLeAntisymmetric(x.id, y.id);
        }
      }
    } else if y.id != z.id {
    } else if x.name != y.name {
      if y.name != z.name {
        StrLeTransitive(x.name, y.name, z.name);
        if x.name == z.name {
          StrLeAntisymmetric(x.name, y.name);
        }
      }
    } else if y.name != z.name {
    } else {
      StrLeTransitive(x.description, y.description, z.description);
    }
  }

  predicate SortedItems(s: seq<EnumItem>)
  {
    forall i :: 0 < i < |s| ==> ItemLe(s[i - 1], s[i])
  }

  /** In a sorted list the first item is no greater than any item. */
  lemma {:induction false} SortedHeadLeast(s: seq<EnumItem>, x: EnumItem)
    requires SortedItems(s) && x in s
    ensures ItemLe(s[0], x)
    decreases |s|
  {
    if s[0] == x {
      StrLeTotal(x.description, x.description);
    } else {
      assert x in s[1..];
      SortedHeadLeast(s[1..], x);
      ItemLeTransitive(s[0], s[1], x);
    }
  }

  /** Two sorted lists with the same items start with the same item. */
  lemma SortedSameHead(a: seq<EnumItem>, b: seq<EnumItem>)
    requires SortedItems(a) && SortedItems(b) && multiset(a) == multiset(b) && a != []
    ensures b != [] && a[0] == b[0]
  {
    assert a[0] in multiset(b);
    assert b[0] in multiset(a);
    SortedHeadLeast(a, b[0]);
    SortedHeadLeast(b, a[0]);
    ItemLeAntisymmetric(a[0], b[0]);
  }

  /** Two sorted lists with the same items are the same list. */
  lemma {:induction false} SortedUnique(a: seq<EnumItem>, b: seq<EnumItem>)
    requires SortedItems(a) && SortedItems(b) && multiset(a) == multiset(b)
    ensures a == b
    decreases |a|
  {
    if a == [] {
      assert |b| == |multiset(b)|;
    } else {
      SortedSameHead(a, b);
      SortedTail(a);
      SortedTail(b);
      SortedUnique(a[1..], b[1..]);
    }
  }

  /** The tail of a sorted list is sorted and holds the other items. */
  lemma SortedTail(s: seq<EnumItem>)
    requires SortedItems(s) && s != []
    ensures SortedItems(s[1..]) && s == [s[0]] + s[1..]
    ensures multiset(s[1..]) == multiset(s) - multiset{s[0]}
  {
    assert s == [s[0]] + s[1..];
    forall i | 0 < i < |s[1..]|
      ensures ItemLe(s[1..][i - 1], s[1..][i])
    {
      assert s[1..][i - 1] == s[i] && s[1..][i] == s[i + 1];
    }
  }

  /** Lists with the same multiset of items have the same members. */
  lemma SameMembers(a: seq<EnumItem>, b: seq<EnumItem>)
    requires multiset(a) == multiset(b)
    ensures forall x :: x in a <==> x in b
  {
    forall x
      ensures x in a <==> x in b
    {
      assert x in a <==> x in multiset(a);
      assert x in b <==> x in multiset(b);
    }
  }

  /** Insert an item into a sorted list. */
  function Insert(x: EnumItem, s: seq<EnumItem>): (r: seq<EnumItem>)
    requires SortedItems(s)
    ensures SortedItems(r) && multiset(r) == multiset(s) + multiset{x}
    ensures r[0] == x || (s != [] && r[0] == s[0])
    decreases |s|
  {
    if s == [] then [x]
    else if ItemLe(x, s[0]) then [x] + s
    else
      ItemLeTotal(x, s[0]);
      assert s == [s[0]] + s[1..];
      [s[0]] + Insert(x, s[1..])
  }

  /** Python's `sorted` on enum tuples. */
  function Sort(s: seq<EnumItem>): (r: seq<EnumItem>)
    ensures SortedItems(r) && multiset(r) == multiset(s)
    decreases |s|
  {
    if s == [] then []
    else
      assert s == s[..|s| - 1] + [s[|s| - 1]];
      Insert(s[|s| - 1], Sort(s[..|s| - 1]))
  }

  /*** Tile type and blueprint enums ***/

  /** A registered tile generator class. */
  datatype Generator = Generator(mtType: string, blLabel: string, idname: string, options: set<string>,
                                 blueprint: Option<string>)

  /** Generators without the INTERNAL option are offered to the user. */
  predicate Listed(g: Generator)
  {
    "INTERNAL" !in g.options
  }

  /** The positions of the generators that are listed. */
  function ListedAt(gens: seq<Generator>): set<int>
  {
    set i | 0 <= i < |gens| && Listed(gens[i])
  }

  /** The enum entries of the listed generators, in class order: one entry per listed generator. */
  function TypeItems(gens: seq<Generator>): (r: seq<EnumItem>)
    ensures forall x :: x in r <==> exists i :: 0 <= i < |gens| && Listed(gens[i]) && x == EnumItem(gens[i].mtType, gens[i].blLabel, "")
    ensures |r| == |ListedAt(gens)|
    decreases |gens|
  {
    if gens == [] then
      assert ListedAt(gens) == {};
      []
    else
      var init := gens[..|gens| - 1];
      var rest := TypeItems(init);
      var g := gens[|gens| - 1];
      assert forall i :: 0 <= i < |gens| - 1 ==> init[i] == gens[i];
      if Listed(g) then
        assert ListedAt(gens) == ListedAt(init) + {|gens| - 1};
        rest + [EnumItem(g.mtType, g.blLabel, "")]
      else
        assert ListedAt(gens) == ListedAt(init);
        rest
  }

  /**
   * `create_tile_type_enums`: no entries without a context; otherwise one
   * entry per listed generator, sorted.
   */
  function TileTypeEnums(hasContext: bool, gens: seq<Generator>): (r: seq<EnumItem>)
    ensures !hasContext ==> r == []
    ensures SortedItems(r)
    ensures hasContext ==> forall x :: x in r <==>
      exists i :: 0 <= i < |gens| && Listed(gens[i]) && x == EnumItem(gens[i].mtType, gens[i].blLabel, "")
    ensures hasContext ==> multiset(r) == multiset(TypeItems(gens)) && |r| == |ListedAt(gens)|
  {
    if !hasContext then []
    else
      var r := Sort(TypeItems(gens));
      SameMembers(r, TypeItems(gens));
      r
  }

  /** A setting value stored in the tile defaults. */
  datatype Value = Num(n: real) | Text(s: string) | Flag(b: bool)

  /** A dictionary, as its items in insertion order. */
  type Pairs<V> = seq<(string, V)>

  /** One entry of the scene's 'tile_defaults' list. */
  datatype TileDefault = TileDefault(
    kind: string,
    mainPartBlueprints: Pairs<string>,
    baseBlueprints: Pairs<string>,
    /** `defaults['tile_defaults']`: the settings for each main-part blueprint. */
    mainPartDefaults: Pairs<Pairs<Value>>,
    /** `defaults['base_defaults']`: the settings for each base blueprint. */
    baseDefaults: Pairs<Pairs<Value>>)

  datatype Part = MainPart | BasePart

  /** The first entry of the tile defaults for a tile type, as the builders' loops find it. */
  function FirstOfType(tiles: seq<TileDefault>, tileType: string): (r: Option<nat>)
    ensures r.Some? ==> r.value < |tiles| && tiles[r.value].kind == tileType
    ensures r.Some? ==> forall j :: 0 <= j < r.value ==> tiles[j].kind != tileType
    ensures r.None? <==> forall j :: 0 <= j < |tiles| ==> tiles[j].kind != tileType
    decreases |tiles|
  {
    if tiles == [] then None
    else if tiles[0].kind == tileType then Some(0)
    else match FirstOfType(tiles[1..], tileType)
      case None => None
      case Some(j) => Some(j + 1)
  }

  function BlueprintNames(t: TileDefault, part: Part): Pairs<string>
  {
    match part
    case MainPart => t.mainPartBlueprints
    case BasePart => t.baseBlueprints
  }

  /** The enum entries of a dictionary's items, in item order. */
  function PairItems(pairs: Pairs<string>): (r: seq<EnumItem>)
    ensures |r| == |pairs| && forall i :: 0 <= i < |pairs| ==> r[i] == EnumItem(pairs[i].0, pairs[i].1, "")
    decreases |pairs|
  {
    if pairs == [] then [] else [EnumItem(pairs[0].0, pairs[0].1, "")] + PairItems(pairs[1..])
  }

  /**
   * `create_main_part_blueprint_enums` and `create_base_blueprint_enums`:
   * the context is read before it is tested, so a missing context raises
   * (`None`); without 'tile_defaults' (`tileDefaults == None`) or without an
   * entry for the tile type there are no entries; otherwise the blueprints
   * of the first entry for the tile type, sorted.
   */
  function BlueprintEnums(hasContext: bool, tileType: string, tileDefaults: Option<seq<TileDefault>>, part: Part)
    : (r: Option<seq<EnumItem>>)
    ensures r.None? <==> !hasContext
    ensures r.Some? ==> SortedItems(r.value)
    ensures r.Some? && tileDefaults.None? ==> r.value == []
    ensures r.Some? && tileDefaults.Some? ==> match FirstOfType(tileDefaults.value, tileType)
      case None => r.value == []
      case Some(i) => multiset(r.value) == multiset(PairItems(BlueprintNames(tileDefaults.value[i], part)))
  {
    if !hasContext then None
    else if tileDefaults.None? then Some([])
    else match FirstOfType(tileDefaults.value, tileType)
      case None => Some([])
      case Some(i) => Some(Sort(PairItems(BlueprintNames(tileDefaults.value[i], part))))
  }

  /**
   * The blueprint entries are exactly the items of the matching entry's
   * blueprint dictionary, whatever order that dictionary lists them in.
   */
  lemma BlueprintEnumsItems(tileType: string, tiles: seq<TileDefault>, part: Part, i: nat)
    requires FirstOfType(tiles, tileType) == Some(i)
    ensures var r := BlueprintEnums(true, tileType, Some(tiles), part).value;
      forall x :: x in r <==> x in PairItems(BlueprintNames(tiles[i], part))
  {
    var items := PairItems(BlueprintNames(tiles[i], part));
    SameMembers(Sort(items), items);
  }

  /*** The generator for a blueprint ***/

  /** The first listed generator for a blueprint. */
  function FirstForBlueprint(gens: seq<Generator>, blueprint: string): (r: Option<nat>)
    ensures r.Some? ==> r.value < |gens| && gens[r.value].blueprint == Some(blueprint) && Listed(gens[r.value])
    ensures r.Some? ==> forall j :: 0 <= j < r.value ==> !(gens[j].blueprint == Some(blueprint) && Listed(gens[j]))
    ensures r.None? <==> forall j :: 0 <= j < |gens| ==> !(gens[j].blueprint == Some(blueprint) && Listed(gens[j]))
    decreases |gens|
  {
    if gens == [] then None
    else if gens[0].blueprint == Some(blueprint) && Listed(gens[0]) then Some(0)
    else match FirstForBlueprint(gens[1..], blueprint)
      case None => None
      case Some(j) => Some(j + 1)
  }

  /** The loop of `update_tile_blueprint`: the first listed generator for the blueprint. */
  method FindForBlueprint(gens: seq<Generator>, blueprint: string) returns (r: Option<nat>)
    ensures r == FirstForBlueprint(gens, blueprint)
  {
    var i := 0;
    while i < |gens|
      invariant 0 <= i <= |gens|
      invariant forall j :: 0 <= j < i ==> !(gens[j].blueprint == Some(blueprint) && Listed(gens[j]))
    {
      if gens[i].blueprint.Some? && gens[i].blueprint.value == blueprint && Listed(gens[i]) {
        return Some(i);
      }
      i := i + 1;
    }
    return None;
  }

  /** A value the tile type enum offers: the type of some listed generator. */
  predicate IsTileType(gens: seq<Generator>, v: string)
  {
    exists j :: 0 <= j < |gens| && Listed(gens[j]) && gens[j].mtType == v
  }

  /**
   * The curved wall generator's `bl_idname` is not a tile type: with it the
   * only generator for its blueprint, the assignment as written is refused.
   */
  lemma CurvedWallIdnameRejected()
    ensures var gens := [Generator("CURVED_WALL", "Curved Wall", "object.make_curved_wall", {"UNDO"}, Some("CUSTOM"))];
      FirstForBlueprint(gens, "CUSTOM") == Some(0) && !IsTileType(gens, gens[0].idname)
  {
  }

  /*** Applying defaults ***/

  /** `setattr` for each pair in order. */
  function SetAll(m: map<string, Value>, pairs: Pairs<Value>): map<string, Value>
    decreases |pairs|
  {
    if pairs == [] then m
    else SetAll(m, pairs[..|pairs| - 1])[pairs[|pairs| - 1].0 := pairs[|pairs| - 1].1]
  }

  /** A setting no pair names is left as it was. */
  lemma {:induction false} SetAllUntouched(m: map<string, Value>, pairs: Pairs<Value>, k: string)
    requires forall i :: 0 <= i < |pairs| ==> pairs[i].0 != k
    ensures (k in SetAll(m, pairs) <==> k in m) && (k in m ==> SetAll(m, pairs)[k] == m[k])
    decreases |pairs|
  {
    if pairs != [] {
      SetAllUntouched(m, pairs[..|pairs| - 1], k);
    }
  }

  /** A setting gets the value of the last pair that names it. */
  lemma {:induction false} SetAllLast(m: map<string, Value>, pairs: Pairs<Value>, i: nat)
    requires i < |pairs| && forall j :: i < j < |pairs| ==> pairs[j].0 != pairs[i].0
    ensures pairs[i].0 in SetAll(m, pairs) && SetAll(m, pairs)[pairs[i].0] == pairs[i].1
    decreases |pairs|
  {
    if i < |pairs| - 1 {
      SetAllLast(m, pairs[..|pairs| - 1], i);
    }
  }

  function DefaultGroups(t: TileDefault, part: Part): Pairs<Pairs<Value>>
  {
    match part
    case MainPart => t.mainPartDefaults
    case BasePart => t.baseDefaults
  }

  /** The first group of settings stored under a blueprint. */
  function FirstGroup(groups: Pairs<Pairs<Value>>, blueprint: string): (r: Option<nat>)
    ensures r.Some? ==> r.value < |groups| && groups[r.value].0 == blueprint
    ensures r.Some? ==> forall j :: 0 <= j < r.value ==> groups[j].0 != blueprint
    ensures r.None? <==> forall j :: 0 <= j < |groups| ==> groups[j].0 != blueprint
    decreases |groups|
  {
    if groups == [] then None
    else if groups[0].0 == blueprint then Some(0)
    else match FirstGroup(groups[1..], blueprint)
      case None => None
      case Some(j) => Some(j + 1)
  }

  /** The settings stored under a blueprint in one entry (none when the blueprint has none). */
  function GroupFor(groups: Pairs<Pairs<Value>>, blueprint: string): Pairs<Value>
  {
    match FirstGroup(groups, blueprint)
    case None => []
    case Some(j) => groups[j].1
  }

  /**
   * The settings after the defaults loop: every entry for the tile type, in
   * list order, applies its settings stored under the blueprint (the outer
   * loop has no `break`, so later entries for the same type apply too).
   */
  function ApplyDefaults(m: map<string, Value>, tiles: seq<TileDefault>, tileType: string, blueprint: string,
                         part: Part): map<string, Value>
    decreases |tiles|
  {
    if tiles == [] then m
    else
      var before := ApplyDefaults(m, tiles[..|tiles| - 1], tileType, blueprint, part);
      var t := tiles[|tiles| - 1];
      if t.kind == tileType then SetAll(before, GroupFor(DefaultGroups(t, part), blueprint)) else before
  }

  /** Without an entry for the tile type the settings are unchanged. */
  lemma {:induction false} ApplyDefaultsNoMatch(m: map<string, Value>, tiles: seq<TileDefault>, tileType: string,
                                                blueprint: string, part: Part)
    requires FirstOfType(tiles, tileType).None?
    ensures ApplyDefaults(m, tiles, tileType, blueprint, part) == m
    decreases |tiles|
  {
    if tiles != [] {
      ApplyDefaultsNoMatch(m, tiles[..|tiles| - 1], tileType, blueprint, part);
    }
  }

  /** With exactly one entry for the tile type, its settings under the blueprint are applied. */
  lemma {:induction false} ApplyDefaultsSingle(m: map<string, Value>, tiles: seq<TileDefault>, tileType: string,
                                               blueprint: string, part: Part, i: nat)
    requires i < |tiles| && tiles[i].kind == tileType
    requires forall j :: 0 <= j < |tiles| && j != i ==> tiles[j].kind != tileType
    ensures ApplyDefaults(m, tiles, tileType, blueprint, part) == SetAll(m, GroupFor(DefaultGroups(tiles[i], part), blueprint))
    decreases |tiles|
  {
    var init := tiles[..|tiles| - 1];
    if i == |tiles| - 1 {
      ApplyDefaultsNoMatch(m, init, tileType, blueprint, part);
    } else {
      ApplyDefaultsSingle(m, init, tileType, blueprint, part, i);
    }
  }

  /**
   * A setting named by no pair stored under the selected blueprint, in any
   * entry for the tile type, is left as it was: the settings of other
   * blueprints and other tile types are never applied.
   */
  lemma {:induction false} ApplyDefaultsUntouched(m: map<string, Value>, tiles: seq<TileDefault>, tileType: string,
                                                  blueprint: string, part: Part, k: string)
    requires forall i, j :: (0 <= i < |tiles| && tiles[i].kind == tileType &&
      0 <= j < |GroupFor(DefaultGroups(tiles[i], part), blueprint)|) ==>
      GroupFor(DefaultGroups(tiles[i], part), blueprint)[j].0 != k
    ensures var r := ApplyDefaults(m, tiles, tileType, blueprint, part);
      (k in r <==> k in m) && (k in m ==> r[k] == m[k])
    decreases |tiles|
  {
    if tiles != [] {
      var init := tiles[..|tiles| - 1];
      assert forall i :: 0 <= i < |init| ==> init[i] == tiles[i];
      ApplyDefaultsUntouched(m, init, tileType, blueprint, part, k);
      var t := tiles[|tiles| - 1];
      if t.kind == tileType {
        SetAllUntouched(ApplyDefaults(m, init, tileType, blueprint, part), GroupFor(DefaultGroups(t, part), blueprint), k);
      }
    }
  }

  /*** The cutter item toggle ***/

  /** Changing whether a modifier shows does not change which modifier a name finds. */
  lemma {:induction false} ShowKeepsLookup(mods: seq<Modifier>, k: nat, v: bool, name: string)
    requires k < |mods|
    ensures FindModifier(mods[k := mods[k].(showViewport := v)], name) == FindModifier(mods, name)
    decreases |mods|
  {
    var m2 := mods[k := mods[k].(showViewport := v)];
    if k > 0 && mods[0].name != name {
      assert m2[1..] == mods[1..][k - 1 := mods[1..][k - 1].(showViewport := v)];
      ShowKeepsLookup(mods[1..], k - 1, v, name);
    }
  }

  /**
   * `MT_Cutter_Item.update_use_cutter`: for an item with a parent, the
   * parent's boolean named after the cutter is shown exactly when the item is
   * in use; `objects` is `bpy.data.objects` by name, and a missing parent or
   * boolean raises KeyError (`ok` false, nothing changed). An item without a
   * parent changes nothing.
   */
  method UpdateUseCutter(item: CutterItem, objects: map<string, Obj>) returns (ok: bool)
    modifies (set o | o in objects.Values)`modifiers
    ensures ok <==> (item.parent == "" ||
      (item.parent in objects && FindModifier(old(objects[item.parent].modifiers), BoolName(item.name)).Some?))
    ensures ok && item.parent != "" ==>
      var o := objects[item.parent];
      var k := FindModifier(old(o.modifiers), BoolName(item.name)).value;
      o.modifiers == old(o.modifiers)[k := old(o.modifiers)[k].(showViewport := item.value)] &&
      FindModifier(o.modifiers, BoolName(item.name)) == Some(k) && o.modifiers[k].showViewport == item.value
    ensures forall o :: o in objects.Values && !(ok && item.parent != "" && o == objects[item.parent]) ==>
      o.modifiers == old(o.modifiers)
  {
    if item.parent != "" {
      if item.parent !in objects {
        return false;
      }
      var parentObj := objects[item.parent];
      ghost var before := parentObj.modifiers;
      ok := parentObj.SetShowViewport(BoolName(item.name), item.value);
      if ok {
        ShowKeepsLookup(before, FindModifier(before, BoolName(item.name)).value, item.value, BoolName(item.name));
      }
    } else {
      ok := true;
    }
  }

  /*** Scene properties ***/

  /** The scene properties the callbacks read and write. */
  class SceneProps {
    var tileX: real
    var tileY: real
    var tileZ: real
    var baseX: real
    var baseY: real
    var baseZ: real
    var xProportionate: bool
    var yProportionate: bool
    var zProportionate: bool
    var tileType: string
    var tileBlueprint: string
    var baseBlueprint: string
    var mainPartBlueprint: string
    /** `scene_props['tile_defaults']`, or `None` where the key is missing. */
    var tileDefaults: Option<seq<TileDefault>>
    /** Every other property, as `setattr` writes it. */
    var settings: map<string, Value>

    /** `update_base_x`: with proportionate scaling on x, the base takes the tile's x. */
    method UpdateBaseX()
      modifies this`baseX
      ensures xProportionate ==> baseX == tileX
      ensures !xProportionate ==> baseX == old(baseX)
    {
      if xProportionate {
        baseX := baseX + (tileX - baseX);
      }
    }

    /** `update_base_y`: the same on y. */
    method UpdateBaseY()
      modifies this`baseY
      ensures yProportionate ==> baseY == tileY
      ensures !yProportionate ==> baseY == old(baseY)
    {
      if yProportionate {
        baseY := baseY + (tileY - baseY);
      }
    }

    /** `update_base_z`: the same on z. */
    method UpdateBaseZ()
      modifies this`baseZ
      ensures zProportionate ==> baseZ == tileZ
      ensures !zProportionate ==> baseZ == old(baseZ)
    {
      if zProportionate {
        baseZ := baseZ + (tileZ - baseZ);
      }
    }

    /**
     * `update_tile_blueprint` as written: it assigns the `bl_idname` of the
     * first listed generator for the selected blueprint to the tile type.
     * The tile type is an enum whose entries are the generators' `mt_type`
     * values, so the host accepts the value only when it is one of those;
     * otherwise the assignment raises (`ok` false) and the tile type stays.
     * With no such generator nothing changes.
     */
    method UpdateTileBlueprintAsWritten(gens: seq<Generator>) returns (ok: bool)
      modifies this`tileType
      ensures match FirstForBlueprint(gens, tileBlueprint)
        case None => ok && tileType == old(tileType)
        case Some(i) =>
          (ok <==> IsTileType(gens, gens[i].idname)) && tileType == (if ok then gens[i].idname else old(tileType))
    {
      var found := FindForBlueprint(gens, tileBlueprint);
      ok := true;
      if found.Some? {
        ok := IsTileType(gens, gens[found.value].idname);
        if ok {
          tileType := gens[found.value].idname;
        }
      }
    }

    /**
     * `update_tile_blueprint` as intended: the tile type becomes the type of
     * the first listed generator for the selected blueprint, a value its
     * enum offers, and stays as it was when there is none.
     */
    method UpdateTileBlueprint(gens: seq<Generator>)
      modifies this`tileType
      ensures match FirstForBlueprint(gens, tileBlueprint)
        case None => tileType == old(tileType)
        case Some(i) => tileType == gens[i].mtType && IsTileType(gens, tileType)
    {
      var found := FindForBlueprint(gens, tileBlueprint);
      if found.Some? {
        tileType := gens[found.value].mtType;
      }
    }

    /** The innermost loop: `setattr` for each pair. */
    method SetPairs(pairs: Pairs<Value>)
      modifies this`settings
      ensures settings == SetAll(old(settings), pairs)
    {
      var i := 0;
      while i < |pairs|
        invariant 0 <= i <= |pairs|
        invariant settings == SetAll(old(settings), pairs[..i])
      {
        assert pairs[..i + 1][..i] == pairs[..i];
        settings := settings[pairs[i].0 := pairs[i].1];
        i := i + 1;
      }
      assert pairs[..i] == pairs;
    }

    /** The middle loop: the settings of the first group under the blueprint, then `break`. */
    method SetGroup(groups: Pairs<Pairs<Value>>, blueprint: string)
      modifies this`settings
      ensures settings == SetAll(old(settings), GroupFor(groups, blueprint))
    {
      var j := 0;
      while j < |groups|
        invariant 0 <= j <= |groups|
        invariant forall l :: 0 <= l < j ==> groups[l].0 != blueprint
        invariant settings == old(settings)
      {
        if groups[j].0 == blueprint {
          SetPairs(groups[j].1);
          return;
        }
        j := j + 1;
      }
    }

    /**
     * The loop shared by `update_base_defaults` and
     * `update_main_part_defaults`; `ok` is false where 'tile_defaults' is
     * missing and the lookup raises KeyError.
     */
    method UpdateDefaults(part: Part, blueprint: string) returns (ok: bool)
      modifies this`settings
      ensures ok <==> tileDefaults.Some?
      ensures ok ==> settings == ApplyDefaults(old(settings), tileDefaults.value, tileType, blueprint, part)
      ensures !ok ==> settings == old(settings)
    {
      if tileDefaults.None? {
        return false;
      }
      var tiles := tileDefaults.value;
      var i := 0;
      while i < |tiles|
        invariant 0 <= i <= |tiles|
        invariant settings == ApplyDefaults(old(settings), tiles[..i], tileType, blueprint, part)
      {
        assert tiles[..i + 1][..i] == tiles[..i];
        if tiles[i].kind == tileType {
          SetGroup(DefaultGroups(tiles[i], part), blueprint);
        }
        i := i + 1;
      }
      assert tiles[..i] == tiles;
      ok := true;
    }

    /** `update_base_defaults`: the settings stored under the selected base blueprint. */
    method UpdateBaseDefaults() returns (ok: bool)
      modifies this`settings
      ensures ok <==> tileDefaults.Some?
      ensures ok ==> settings == ApplyDefaults(old(settings), tileDefaults.value, tileType, baseBlueprint, BasePart)
      ensures !ok ==> settings == old(settings)
    {
      ok := UpdateDefaults(BasePart, baseBlueprint);
    }

    /** `update_main_part_defaults`: the settings stored under the selected main-part blueprint. */
    method UpdateMainPartDefaults() returns (ok: bool)
      modifies this`settings
      ensures ok <==> tileDefaults.Some?
      ensures ok ==> settings == ApplyDefaults(old(settings), tileDefaults.value, tileType, mainPartBlueprint, MainPart)
      ensures !ok ==> settings == old(settings)
    {
      ok := UpdateDefaults(MainPart, mainPartBlueprint);
    }
  }
}
