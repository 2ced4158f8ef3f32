/**
 * The tile trimmers (`operators/trim_tile.py`): six box-shaped cutters, one
 * per face of a tile's bounding box, each drawn by the turtle as a slab 0.5
 * thick lying `buffer` inside its face and overhanging the box by 0.5 on
 * the other two axes; their registration on the tile's empty; the boolean
 * that each trimmer gets on a tile, off in the viewport until `trim_side`
 * turns it on; and the two branches of the curved trimmer.
 *
 * The turtle is the scene cursor: pen-up moves move it, and each pen-down
 * move along an axis extrudes what has been drawn so far along that axis,
 * so three pen-down moves along the three axes draw a box. The drawn
 * object is made by `add_turtle`, so its origin is where the cursor was
 * then, and the cursor is left where the turtle stopped. A bounding box's
 * eight corners are numbered as Blender numbers `bound_box`: corner i has
 * the high x when i >= 4, the high y when i is 2, 3, 6 or 7, and the high z
 * when i is 1, 2, 5 or 6.
 */
module TrimTile {
  import opened Common
  import opened Objects

  /** An axis-aligned box. */
  datatype Extent = Extent(lo: Vec3, hi: Vec3)

  predicate Ordered(b: Extent)
  {
    b.lo.x <= b.hi.x && b.lo.y <= b.hi.y && b.lo.z <= b.hi.z
  }

  predicate InExtent(p: Vec3, b: Extent)
  {
    b.lo.x <= p.x <= b.hi.x && b.lo.y <= p.y <= b.hi.y && b.lo.z <= p.z <= b.hi.z
  }

  /** Corner `i` of `bound_box`. */
  function BoxCorner(b: Extent, i: nat): (r: Vec3)
    requires i < 8
    ensures InExtent(r, b) || !Ordered(b)
  {
    Vec3(if i >= 4 then b.hi.x else b.lo.x,
         if i in {2, 3, 6, 7} then b.hi.y else b.lo.y,
         if i in {1, 2, 5, 6} then b.hi.z else b.lo.z)
  }

  /** The box an object's geometry fills. */
  function Box(o: Obj): Extent
    reads o`location, o`offset, o`size
  {
    Extent(o.Lo(), o.Hi())
  }

  /*** The turtle ***/

  /** One coordinate of the box swept from `a` by a signed distance `d`. */
  function Low(a: real, d: real): (r: real)
    ensures r == a || r == a + d
    ensures r <= a && r <= a + d
  {
    if d >= 0.0 then a else a + d
  }

  function Abs(d: real): (r: real)
    ensures r >= 0.0 && (r == d || r == -d)
  {
    if d >= 0.0 then d else -d
  }

  /**
   * The turtle: where it is, whether its pen is down, where the pen went
   * down, the signed distance swept along each axis since then, and where
   * it was added, which is the drawn object's origin.
   */
  datatype Turtle = Turtle(pos: Vec3, down: bool, start: Vec3, sweep: Vec3, home: Vec3)
  {
    /** `set_position`: the turtle moves; the object's origin stays. */
    function SetPosition(v: Vec3): Turtle
    {
      this.(pos := v)
    }

    /** `pd`: the pen goes down where the turtle is. */
    function PenDown(): Turtle
    {
      this.(down := true, start := pos, sweep := Origin)
    }

    /** A move by `delta`; with the pen down it extrudes along the move. */
    function Move(delta: Vec3): Turtle
    {
      this.(pos := Add(pos, delta), sweep := if down then Add(sweep, delta) else sweep)
    }

    /** `fd`, `bk`, `ri`, `lf`, `up` and `dn`: moves along +y, -y, +x, -x, +z and -z. */
    function Fd(d: real): Turtle { Move(Vec3(0.0, d, 0.0)) }
    function Bk(d: real): Turtle { Move(Vec3(0.0, -d, 0.0)) }
    function Ri(d: real): Turtle { Move(Vec3(d, 0.0, 0.0)) }
    function Lf(d: real): Turtle { Move(Vec3(-d, 0.0, 0.0)) }
    function Up(d: real): Turtle { Move(Vec3(0.0, 0.0, d)) }
    function Dn(d: real): Turtle { Move(Vec3(0.0, 0.0, -d)) }
  }

  /** `add_turtle`: a new object at the cursor, with the turtle there, pen up. */
  function AddTurtle(cursor: Vec3): Turtle
  {
    Turtle(cursor, false, cursor, Origin, cursor)
  }

  /**
   * The drawn mesh as an object: the box the turtle swept from where its
   * pen went down, with the origin where the turtle was added.
   */
  method Drawn(t: Turtle) returns (o: Obj)
    ensures fresh(o) && Box(o) == Swept(t.start, t.sweep) && o.location == t.home
    ensures o.modifiers == [] && o.trimmers == [] && o.parent == ""
  {
    var lo := Vec3(Low(t.start.x, t.sweep.x), Low(t.start.y, t.sweep.y), Low(t.start.z, t.sweep.z));
    o := new Obj("", Vec3(Abs(t.sweep.x), Abs(t.sweep.y), Abs(t.sweep.z)), t.home);
    o.offset := Sub(lo, t.home);
  }

  /** The box a pen-down point and its swept distances span: each axis from the lower end to the higher. */
  function Swept(start: Vec3, sweep: Vec3): (r: Extent)
    ensures Ordered(r)
    ensures r.lo.x == Low(start.x, sweep.x) && r.hi.x == r.lo.x + Abs(sweep.x)
    ensures r.lo.y == Low(start.y, sweep.y) && r.hi.y == r.lo.y + Abs(sweep.y)
    ensures r.lo.z == Low(start.z, sweep.z) && r.hi.z == r.lo.z + Abs(sweep.z)
  {
    var lo := Vec3(Low(start.x, sweep.x), Low(start.y, sweep.y), Low(start.z, sweep.z));
    Extent(lo, Add(lo, Vec3(Abs(sweep.x), Abs(sweep.y), Abs(sweep.z))))
  }

  /*** The six trimmers ***/

  datatype Side = XNeg | XPos | YNeg | YPos | ZPos | ZNeg

  /** The box `b` widened by 0.5 on every side along one axis. */
  function WideLo(lo: real): real { lo - 0.5 }
  function WideHi(hi: real): real { hi + 0.5 }

  /**
   * The slab that trims side `s` of box `b`: 0.5 thick, its inner face
   * `buffer` inside the box's face, and 0.5 wider than the box at both ends
   * of the other two axes.
   */
  function Slab(s: Side, b: Extent, buffer: real): Extent
  {
    var lo, hi := b.lo, b.hi;
    match s
    case XNeg => Extent(Vec3(lo.x + buffer - 0.5, WideLo(lo.y), WideLo(lo.z)), Vec3(lo.x + buffer, WideHi(hi.y), WideHi(hi.z)))
    case XPos => Extent(Vec3(hi.x - buffer, WideLo(lo.y), WideLo(lo.z)), Vec3(hi.x - buffer + 0.5, WideHi(hi.y), WideHi(hi.z)))
    case YNeg => Extent(Vec3(WideLo(lo.x), lo.y + buffer - 0.5, WideLo(lo.z)), Vec3(WideHi(hi.x), lo.y + buffer, WideHi(hi.z)))
    case YPos => Extent(Vec3(WideLo(lo.x), hi.y - buffer, WideLo(lo.z)), Vec3(WideHi(hi.x), hi.y - buffer + 0.5, WideHi(hi.z)))
    case ZPos => Extent(Vec3(WideLo(lo.x), WideLo(lo.y), hi.z - buffer), Vec3(WideHi(hi.x), WideHi(hi.y), hi.z - buffer + 0.5))
    case ZNeg => Extent(Vec3(WideLo(lo.x), WideLo(lo.y), lo.z + buffer - 0.5), Vec3(WideHi(hi.x), WideHi(hi.y), lo.z + buffer))
  }

  /**
   * Where the turtle stops after drawing the trimmer for side `s` into
   * `box`: the box's corner at the high end of every axis, except on the
   * axis a negative side faces, where it stops at the low end.
   */
  function TrimmerEnd(s: Side, box: Extent): Vec3
  {
    match s
    case XNeg => Vec3(box.lo.x, box.hi.y, box.hi.z)
    case YNeg => Vec3(box.hi.x, box.lo.y, box.hi.z)
    case ZNeg => Vec3(box.hi.x, box.hi.y, box.lo.z)
    case _ => box.hi
  }

  /** How deep a point lies inside the box, measured from side `s`. */
  function Depth(s: Side, b: Extent, p: Vec3): real
  {
    match s
    case XNeg => p.x - b.lo.x
    case XPos => b.hi.x - p.x
    case YNeg => p.y - b.lo.y
    case YPos => b.hi.y - p.y
    case ZPos => b.hi.z - p.z
    case ZNeg => p.z - b.lo.z
  }

  /**
   * What a trimmer cuts away: of the points of the box, a trimmer's slab
   * holds exactly those no deeper than `buffer` from its side, for any
   * buffer up to the slab's thickness.
   */
  lemma SlabTrimsBuffer(s: Side, b: Extent, buffer: real, p: Vec3)
    requires 0.0 <= buffer <= 0.5 && InExtent(p, b)
    ensures InExtent(p, Slab(s, b, buffer)) <==> Depth(s, b, p) <= buffer
  {
  }

  /**
   * `create_x_neg_trimmer`: from corner 0, pen up: right by the buffer, down
   * 0.5, back 0.5; pen down: forward the depth plus 1, up the height plus 1,
   * left 0.5.
   */
  method CreateXNegTrimmer(scene: Scene, b: Extent, buffer: real) returns (trimmer: Obj)
    requires Ordered(b)
    modifies scene`cursor
    ensures fresh(trimmer) && Box(trimmer) == Slab(XNeg, b, buffer) && trimmer.parent == ""
    ensures trimmer.location == old(scene.cursor) && scene.cursor == TrimmerEnd(XNeg, Box(trimmer))
  {
    var dims := Sub(b.hi, b.lo);
    var t := AddTurtle(scene.cursor);
    t := t.SetPosition(BoxCorner(b, 0));
    t := t.Ri(buffer);
    t := t.Dn(0.5);
    t := t.Bk(0.5);
    t := t.PenDown();
    t := t.Fd(dims.y + 1.0);
    t := t.Up(dims.z + 1.0);
    t := t.Lf(0.5);
    trimmer := Drawn(t);
    scene.cursor := t.pos;
  }

  /** `create_x_pos_trimmer`: as for X Neg from corner 4, left by the buffer, and right 0.5 at the end. */
  method CreateXPosTrimmer(scene: Scene, b: Extent, buffer: real) returns (trimmer: Obj)
    requires Ordered(b)
    modifies scene`cursor
    ensures fresh(trimmer) && Box(trimmer) == Slab(XPos, b, buffer) && trimmer.parent == ""
    ensures trimmer.location == old(scene.cursor) && scene.cursor == TrimmerEnd(XPos, Box(trimmer))
  {
    var dims := Sub(b.hi, b.lo);
    var t := AddTurtle(scene.cursor);
    t := t.SetPosition(BoxCorner(b, 4));
    t := t.Lf(buffer);
    t := t.Dn(0.5);
    t := t.Bk(0.5);
    t := t.PenDown();
    t := t.Fd(dims.y + 1.0);
    t := t.Up(dims.z + 1.0);
    t := t.Ri(0.5);
    trimmer := Drawn(t);
    scene.cursor := t.pos;
  }

  /**
   * `create_y_neg_trimmer`: from corner 0, pen up: forward by the buffer,
   * left 0.5, down 0.5; pen down: right the width plus 1, back 0.5, up the
   * height plus 1.
   */
  method CreateYNegTrimmer(scene: Scene, b: Extent, buffer: real) returns (trimmer: Obj)
    requires Ordered(b)
    modifies scene`cursor
    ensures fresh(trimmer) && Box(trimmer) == Slab(YNeg, b, buffer) && trimmer.parent == ""
    ensures trimmer.location == old(scene.cursor) && scene.cursor == TrimmerEnd(YNeg, Box(trimmer))
  {
    var dims := Sub(b.hi, b.lo);
    var t := AddTurtle(scene.cursor);
    t := t.SetPosition(BoxCorner(b, 0));
    t := t.Fd(buffer);
    t := t.Lf(0.5);
    t := t.Dn(0.5);
    t := t.PenDown();
    t := t.Ri(dims.x + 1.0);
    t := t.Bk(0.5);
    t := t.Up(dims.z + 1.0);
    trimmer := Drawn(t);
    scene.cursor := t.pos;
  }

  /**
   * `create_y_pos_trimmer`: from corner 0, pen up: forward the depth, back
   * by the buffer, left 0.5, down 0.5; pen down: right the width plus 1,
   * forward 0.5, up the height plus 1.
   */
  method CreateYPosTrimmer(scene: Scene, b: Extent, buffer: real) returns (trimmer: Obj)
    requires Ordered(b)
    modifies scene`cursor
    ensures fresh(trimmer) && Box(trimmer) == Slab(YPos, b, buffer) && trimmer.parent == ""
    ensures trimmer.location == old(scene.cursor) && scene.cursor == TrimmerEnd(YPos, Box(trimmer))
  {
    var dims := Sub(b.hi, b.lo);
    var t := AddTurtle(scene.cursor);
    t := t.SetPosition(BoxCorner(b, 0));
    t := t.Fd(dims.y);
    t := t.Bk(buffer);
    t := t.Lf(0.5);
    t := t.Dn(0.5);
    t := t.PenDown();
    t := t.Ri(dims.x + 1.0);
    t := t.Fd(0.5);
    t := t.Up(dims.z + 1.0);
    trimmer := Drawn(t);
    scene.cursor := t.pos;
  }

  /**
   * The box `create_z_pos_trimmer` draws as written: it starts from corner 2,
   * which is at the box's high y, and goes back only 1 before sweeping the
   * depth plus 1, so it spans y from the high y less 1 to the high y plus
   * the depth.
   */
  function ZPosAsWritten(b: Extent, buffer: real): Extent
  {
    var dy := b.hi.y - b.lo.y;
    Extent(Vec3(WideLo(b.lo.x), b.hi.y - 1.0, b.hi.z - buffer), Vec3(WideHi(b.hi.x), b.hi.y + dy, b.hi.z - buffer + 0.5))
  }

  /**
   * `create_z_pos_trimmer` as written: from corner 2, pen up: down by the
   * buffer, left 0.5, back 1; pen down: forward the depth plus 1, right the
   * width plus 1, up 0.5.
   */
  method CreateZPosTrimmerAsWritten(scene: Scene, b: Extent, buffer: real) returns (trimmer: Obj)
    requires Ordered(b)
    modifies scene`cursor
    ensures fresh(trimmer) && Box(trimmer) == ZPosAsWritten(b, buffer) && trimmer.parent == ""
    ensures trimmer.location == old(scene.cursor) && scene.cursor == TrimmerEnd(ZPos, Box(trimmer))
  {
    var dims := Sub(b.hi, b.lo);
    var t := AddTurtle(scene.cursor);
    t := t.SetPosition(BoxCorner(b, 2));
    t := t.Dn(buffer);
    t := t.Lf(0.5);
    t := t.Bk(1.0);
    t := t.PenDown();
    t := t.Fd(dims.y + 1.0);
    t := t.Ri(dims.x + 1.0);
    t := t.Up(0.5);
    trimmer := Drawn(t);
    scene.cursor := t.pos;
  }

  /**
   * On a box deeper than 1, the Z Pos trimmer as written misses the front
   * of the top face: for the box (0, 0, 0)-(1, 2, 1) and buffer 0.1, the
   * point (0.5, 0.5, 0.95) lies within the buffer of the top but outside the
   * trimmer, while the intended slab holds it.
   */
  lemma ZPosAsWrittenMissesFront()
    ensures var b, p := Extent(Origin, Vec3(1.0, 2.0, 1.0)), Vec3(0.5, 0.5, 0.95);
      InExtent(p, b) && Depth(ZPos, b, p) <= 0.1 &&
      !InExtent(p, ZPosAsWritten(b, 0.1)) && InExtent(p, Slab(ZPos, b, 0.1))
  {
  }

  /** The Z Pos trimmer as written does trim the whole top of a box no deeper than 1. */
  lemma ZPosAsWrittenShallow(b: Extent, buffer: real, p: Vec3)
    requires Ordered(b) && b.hi.y - b.lo.y <= 1.0 && InExtent(p, b)
    ensures InExtent(p, ZPosAsWritten(b, buffer)) <==> InExtent(p, Slab(ZPos, b, buffer))
  {
  }

  /**
   * The Z Pos trimmer as evidently intended, the mirror of Z Neg: from
   * corner 1 (low y, high z), down by the buffer, left 0.5, back 0.5; then
   * forward the depth plus 1, right the width plus 1, up 0.5.
   */
  method CreateZPosTrimmer(scene: Scene, b: Extent, buffer: real) returns (trimmer: Obj)
    requires Ordered(b)
    modifies scene`cursor
    ensures fresh(trimmer) && Box(trimmer) == Slab(ZPos, b, buffer) && trimmer.parent == ""
    ensures trimmer.location == old(scene.cursor) && scene.cursor == TrimmerEnd(ZPos, Box(trimmer))
  {
    var dims := Sub(b.hi, b.lo);
    var t := AddTurtle(scene.cursor);
    t := t.SetPosition(BoxCorner(b, 1));
    t := t.Dn(buffer);
    t := t.Lf(0.5);
    t := t.Bk(0.5);
    t := t.PenDown();
    t := t.Fd(dims.y + 1.0);
    t := t.Ri(dims.x + 1.0);
    t := t.Up(0.5);
    trimmer := Drawn(t);
    scene.cursor := t.pos;
  }

  /**
   * `create_z_neg_trimmer`: from corner 0, pen up: up by the buffer, left
   * 0.5, back 0.5; pen down: forward the depth plus 1, right the width plus
   * 1, down 0.5.
   */
  method CreateZNegTrimmer(scene: Scene, b: Extent, buffer: real) returns (trimmer: Obj)
    requires Ordered(b)
    modifies scene`cursor
    ensures fresh(trimmer) && Box(trimmer) == Slab(ZNeg, b, buffer) && trimmer.parent == ""
    ensures trimmer.location == old(scene.cursor) && scene.cursor == TrimmerEnd(ZNeg, Box(trimmer))
  {
    var dims := Sub(b.hi, b.lo);
    var t := AddTurtle(scene.cursor);
    t := t.SetPosition(BoxCorner(b, 0));
    t := t.Up(buffer);
    t := t.Lf(0.5);
    t := t.Bk(0.5);
    t := t.PenDown();
    t := t.Fd(dims.y + 1.0);
    t := t.Ri(dims.x + 1.0);
    t := t.Dn(0.5);
    trimmer := Drawn(t);
    scene.cursor := t.pos;
  }

  /*** The cuboid tile's trimmers ***/

  /**
   * The size of the bounding proxy: the tile's x and z with the base's y
   * when `base_blueprint is not 'NONE'`, else the tile's size. The test
   * compares identity: `sameObject` says whether the blueprint value is the
   * very string object of the literal, which implies it equals 'NONE'.
   */
  function ProxySize(tileSize: Vec3, baseSize: Vec3, blueprint: string, sameObject: bool): (r: Vec3)
    requires sameObject ==> blueprint == "NONE"
    ensures blueprint != "NONE" ==> r == Vec3(tileSize.x, baseSize.y, tileSize.z)
    ensures sameObject ==> r == tileSize
    ensures r.x == tileSize.x && r.z == tileSize.z
  {
    if !sameObject then Vec3(tileSize.x, baseSize.y, tileSize.z) else tileSize
  }

  /**
   * With identity in place of equality, a blueprint equal to 'NONE' held in
   * a different string object still gets the base's y.
   */
  lemma ProxySizeIdentity(tileSize: Vec3, baseSize: Vec3)
    ensures ProxySize(tileSize, baseSize, "NONE", false) == Vec3(tileSize.x, baseSize.y, tileSize.z)
  {
  }

  /**
   * The proxy's bounding box in its own coordinates once it is centred on
   * the cursor in x and y with its origin back at the cursor: centred in x
   * and y, from 0 up in z.
   */
  function ProxyExtent(size: Vec3): (r: Extent)
    ensures r.hi.x - r.lo.x == size.x && r.hi.y - r.lo.y == size.y && r.hi.z - r.lo.z == size.z
    ensures r.lo.x + r.hi.x == 0.0 && r.lo.y + r.hi.y == 0.0 && r.lo.z == 0.0
  {
    Extent(Vec3(-size.x / 2.0, -size.y / 2.0, 0.0), Vec3(size.x / 2.0, size.y / 2.0, size.z))
  }

  /**
   * The bounding proxy: a cuboid of the proxy size drawn at the cursor,
   * moved back by half its x and y dimensions, and its origin put back at
   * the cursor. Returns its bounding box in its own coordinates.
   */
  method BoundingProxy(scene: Scene, size: Vec3) returns (b: Extent)
    requires size.x >= 0.0 && size.y >= 0.0 && size.z >= 0.0
    ensures b == ProxyExtent(size) && Ordered(b)
  {
    var cursorOrig := scene.cursor;
    var proxy := new Obj("", size, scene.cursor);
    proxy.location := Vec3(proxy.location.x - proxy.size.x / 2.0, proxy.location.y - proxy.size.y / 2.0, proxy.location.z);
    proxy.OriginToCursor(cursorOrig);
    b := Extent(Sub(proxy.Lo(), proxy.location), Sub(proxy.Hi(), proxy.location));
  }

  /** The trimmers' names, in the order they are made. */
  function TrimmerNames(tileName: string): seq<string>
  {
    ["X Neg Trimmer." + tileName, "X Pos Trimmer." + tileName, "Y Neg Trimmer." + tileName,
     "Y Pos Trimmer." + tileName, "Z Pos Trimmer." + tileName, "Z Neg Trimmer." + tileName]
  }

  /** The side each trimmer trims, in the order they are made. */
  const Sides: seq<Side> := [XNeg, XPos, YNeg, YPos, ZPos, ZNeg]

  /** Distinct tile names give distinct trimmer names, and the six names of one tile differ. */
  lemma TrimmerNamesDistinct(tileName: string)
    ensures Distinct(TrimmerNames(tileName))
  {
    var n := TrimmerNames(tileName);
    var heads := ["X N", "X P", "Y N", "Y P", "Z P", "Z N"];
    PrefixOf("X Neg Trimmer.", tileName);
    PrefixOf("X Pos Trimmer.", tileName);
    PrefixOf("Y Neg Trimmer.", tileName);
    PrefixOf("Y Pos Trimmer.", tileName);
    PrefixOf("Z Pos Trimmer.", tileName);
    PrefixOf("Z Neg Trimmer.", tileName);
    assert forall i :: 0 <= i < 6 ==> n[i][..3] == heads[i];
    forall i, j | 0 <= i < j < 6
      ensures n[i] != n[j]
    {
      assert heads[i] != heads[j];
    }
  }

  /** A name built from a prefix keeps the prefix's first three characters. */
  lemma PrefixOf(prefix: string, tileName: string)
    requires |prefix| >= 3
    ensures (prefix + tileName)[..3] == prefix[..3]
  {
    assert (prefix + tileName)[..3] == (prefix + tileName)[..|prefix|][..3];
  }

  /**
   * The box the trimmer for side `s` fills: the side's slab, except that the
   * Z Pos trimmer drawn as written fills `ZPosAsWritten`.
   */
  function TrimmerBox(s: Side, b: Extent, buffer: real, zPosAsWritten: bool): Extent
  {
    if s == ZPos && zPosAsWritten then ZPosAsWritten(b, buffer) else Slab(s, b, buffer)
  }

  /** The six trimmers' boxes in the order they are made. */
  function TrimmerBoxes(b: Extent, buffer: real, zPosAsWritten: bool): (r: seq<Extent>)
    ensures |r| == 6 && forall i :: 0 <= i < 6 ==> r[i] == TrimmerBox(Sides[i], b, buffer, zPosAsWritten)
  {
    seq(6, i requires 0 <= i < 6 => TrimmerBox(Sides[i], b, buffer, zPosAsWritten))
  }

  /**
   * Every trimmer but Z Pos fills its side's slab whichever Z Pos builder
   * runs; Z Pos fills the slab as intended and `ZPosAsWritten` as written.
   */
  lemma TrimmerBoxesSpec(b: Extent, buffer: real)
    ensures forall i :: 0 <= i < 6 ==> TrimmerBoxes(b, buffer, false)[i] == Slab(Sides[i], b, buffer)
    ensures forall i :: 0 <= i < 6 && i != 4 ==> TrimmerBoxes(b, buffer, true)[i] == Slab(Sides[i], b, buffer)
    ensures TrimmerBoxes(b, buffer, true)[4] == ZPosAsWritten(b, buffer)
  {
    assert forall i :: 0 <= i < 6 && i != 4 ==> Sides[i] != ZPos;
  }

  /**
   * Where each of the six trimmers gets its origin, the cursor when its
   * turtle is added: the first at the cursor the builders start from, each
   * later one where the turtle of the one before stopped.
   */
  function TrimmerOrigins(cursor: Vec3, boxes: seq<Extent>): (r: seq<Vec3>)
    requires |boxes| == 6
    ensures |r| == 6 && r[0] == cursor
    ensures forall k :: 1 <= k < 6 ==> r[k] == TrimmerEnd(Sides[k - 1], boxes[k - 1])
  {
    [cursor] + seq(5, k requires 0 <= k < 5 => TrimmerEnd(Sides[k], boxes[k]))
  }

  /** A drawn trimmer: its name, the box it fills, and its origin. */
  ghost predicate Made(t: Obj, name: string, box: Extent, origin: Vec3)
    reads t`name, t`location, t`offset, t`size
  {
    t.name == name && Box(t) == box && t.location == origin
  }

  /**
   * The trimmer for one side, drawn by its own builder and given its name;
   * `zPosAsWritten` chooses the Z Pos builder as written or as intended.
   */
  method NamedTrimmer(scene: Scene, b: Extent, buffer: real, s: Side, name: string, zPosAsWritten: bool)
    returns (trimmer: Obj)
    requires Ordered(b)
    modifies scene`cursor
    ensures fresh(trimmer) && Made(trimmer, name, TrimmerBox(s, b, buffer, zPosAsWritten), old(scene.cursor))
    ensures scene.cursor == TrimmerEnd(s, TrimmerBox(s, b, buffer, zPosAsWritten))
  {
    match s {
      case XNeg => trimmer := CreateXNegTrimmer(scene, b, buffer);
      case XPos => trimmer := CreateXPosTrimmer(scene, b, buffer);
      case YNeg => trimmer := CreateYNegTrimmer(scene, b, buffer);
      case YPos => trimmer := CreateYPosTrimmer(scene, b, buffer);
      case ZPos =>
        if zPosAsWritten {
          trimmer := CreateZPosTrimmerAsWritten(scene, b, buffer);
        } else {
          trimmer := CreateZPosTrimmer(scene, b, buffer);
        }
      case ZNeg => trimmer := CreateZNegTrimmer(scene, b, buffer);
    }
    trimmer.name := name;
  }

  /** The next trimmer in side order, drawn and named, after those already made. */
  method AddTrimmer(scene: Scene, b: Extent, buffer: real, names: seq<string>, zPosAsWritten: bool,
                    ghost boxes: seq<Extent>, ghost origins: seq<Vec3>, trimmers: seq<Obj>)
    returns (more: seq<Obj>)
    requires Ordered(b) && |names| == 6 && boxes == TrimmerBoxes(b, buffer, zPosAsWritten)
    requires |origins| == 6 && origins == TrimmerOrigins(origins[0], boxes)
    requires |trimmers| < 6 && Distinct(trimmers) && scene.cursor == origins[|trimmers|]
    requires forall i :: 0 <= i < |trimmers| ==> Made(trimmers[i], names[i], boxes[i], origins[i])
    modifies scene`cursor
    ensures |more| == |trimmers| + 1 && more[..|trimmers|] == trimmers && fresh(more[|trimmers|]) && Distinct(more)
    ensures forall i :: 0 <= i < |more| ==> Made(more[i], names[i], boxes[i], origins[i])
    ensures |more| < 6 ==> scene.cursor == origins[|more|]
  {
    var t := NamedTrimmer(scene, b, buffer, Sides[|trimmers|], names[|trimmers|], zPosAsWritten);
    more := trimmers + [t];
  }

  /**
   * The six trimmers of a box, given the six names, each drawn with a fresh
   * turtle added where the previous one stopped.
   */
  method CreateSixTrimmers(scene: Scene, b: Extent, buffer: real, names: seq<string>, zPosAsWritten: bool)
    returns (trimmers: seq<Obj>)
    requires Ordered(b) && |names| == 6
    modifies scene`cursor
    ensures |trimmers| == 6 && Distinct(trimmers) && forall i :: 0 <= i < 6 ==> fresh(trimmers[i])
    ensures var boxes := TrimmerBoxes(b, buffer, zPosAsWritten);
      forall i :: 0 <= i < 6 ==> Made(trimmers[i], names[i], boxes[i], TrimmerOrigins(old(scene.cursor), boxes)[i])
  {
    ghost var boxes := TrimmerBoxes(b, buffer, zPosAsWritten);
    ghost var origins := TrimmerOrigins(scene.cursor, boxes);
    trimmers := [];
    while |trimmers| < 6
      invariant |trimmers| <= 6 && Distinct(trimmers) && forall i :: 0 <= i < |trimmers| ==> fresh(trimmers[i])
      invariant forall i :: 0 <= i < |trimmers| ==> Made(trimmers[i], names[i], boxes[i], origins[i])
      invariant |trimmers| < 6 ==> scene.cursor == origins[|trimmers|]
      decreases 6 - |trimmers|
    {
      trimmers := AddTrimmer(scene, b, buffer, names, zPosAsWritten, boxes, origins, trimmers);
    }
  }

  /**
   * `origin_set(type='ORIGIN_CURSOR')` on the selected objects: each one's
   * origin goes to the cursor and its geometry stays where it is.
   */
  method OriginSet(selected: seq<Obj>, cursor: Vec3)
    requires Distinct(selected)
    modifies (set o | o in selected)`location, (set o | o in selected)`offset
    ensures forall i :: 0 <= i < |selected| ==> selected[i].location == cursor && Box(selected[i]) == old(Box(selected[i]))
  {
    var k := 0;
    while k < |selected|
      invariant 0 <= k <= |selected|
      invariant forall i :: 0 <= i < |selected| ==> Box(selected[i]) == old(Box(selected[i]))
      invariant forall i :: 0 <= i < k ==> selected[i].location == cursor
    {
      assert forall i :: 0 <= i < |selected| && i != k ==> selected[i] != selected[k];
      selected[k].OriginToCursor(cursor);
      k := k + 1;
    }
  }

  /**
   * The per-trimmer settings of the loop: it is drawn as bounds, parented to
   * the tile's empty and typed as a trimmer, and the empty's trimmers
   * collection gets an entry (value off, parent the empty) for it.
   */
  method RegisterTrimmer(t: Obj, empty: Obj)
    requires t != empty
    modifies t`display, t`parent, t`geometryType, empty`trimmers
    ensures t.display == Bounds && t.parent == empty.name && t.geometryType == Trimmer
    ensures empty.trimmers == old(empty.trimmers) + [CutterItem(t.name, false, empty.name)]
  {
    t.display := Bounds;
    t.parent := empty.name;
    t.geometryType := Trimmer;
    empty.AddTrimmerItem(CutterItem(t.name, false, empty.name));
  }

  /** The loop over the trimmers, registering each on the tile's empty. */
  method RegisterTrimmers(trimmers: seq<Obj>, empty: Obj, ghost names: seq<string>)
    requires empty !in trimmers && Distinct(trimmers)
    requires |names| == |trimmers| && forall i :: 0 <= i < |trimmers| ==> trimmers[i].name == names[i]
    modifies (set t | t in trimmers)`display, (set t | t in trimmers)`parent
    modifies (set t | t in trimmers)`geometryType, empty`trimmers
    ensures forall i :: 0 <= i < |trimmers| ==>
      trimmers[i].display == Bounds && trimmers[i].parent == empty.name && trimmers[i].geometryType == Trimmer
    ensures forall i :: 0 <= i < |trimmers| ==>
      trimmers[i].location == old(trimmers[i].location) && Box(trimmers[i]) == old(Box(trimmers[i]))
    ensures empty.trimmers == old(empty.trimmers) + CutterItemsOff(names, empty.name)
  {
    var k := 0;
    while k < |trimmers|
      invariant 0 <= k <= |trimmers|
      invariant forall i :: 0 <= i < k ==>
        trimmers[i].display == Bounds && trimmers[i].parent == empty.name && trimmers[i].geometryType == Trimmer
      invariant empty.trimmers == old(empty.trimmers) + CutterItemsOff(names[..k], empty.name)
    {
      assert forall i :: 0 <= i < |trimmers| && i != k ==> trimmers[i] != trimmers[k];
      RegisterTrimmer(trimmers[k], empty);
      assert names[..k + 1] == names[..k] + [names[k]];
      k := k + 1;
    }
    assert names[..k] == names;
  }

  /** The collection entries of cutters not yet in use: value off, one per name, in order. */
  function CutterItemsOff(names: seq<string>, parent: string): (r: seq<CutterItem>)
    ensures |r| == |names|
    ensures forall i :: 0 <= i < |names| ==> r[i] == CutterItem(names[i], false, parent)
  {
    seq(|names|, i requires 0 <= i < |names| => CutterItem(names[i], false, parent))
  }

  /**
   * The drawing half of `create_cuboid_tile_trimmers`: the bounding proxy,
   * its six trimmers named after the tile, and the cursor back where it was.
   */
  method DrawTrimmers(scene: Scene, tileSize: Vec3, baseSize: Vec3, tileName: string, blueprint: string,
                      sameObject: bool, buffer: real, zPosAsWritten: bool)
    returns (trimmers: seq<Obj>)
    requires sameObject ==> blueprint == "NONE"
    requires tileSize.x >= 0.0 && tileSize.y >= 0.0 && tileSize.z >= 0.0 && baseSize.y >= 0.0
    modifies scene`cursor
    ensures scene.cursor == old(scene.cursor)
    ensures |trimmers| == 6 && Distinct(trimmers) && forall i :: 0 <= i < 6 ==> fresh(trimmers[i])
    ensures var boxes := TrimmerBoxes(ProxyExtent(ProxySize(tileSize, baseSize, blueprint, sameObject)), buffer, zPosAsWritten);
      forall i :: 0 <= i < 6 ==> Made(trimmers[i], TrimmerNames(tileName)[i], boxes[i], TrimmerOrigins(scene.cursor, boxes)[i])
  {
    var cursorOrig := scene.cursor;
    var b := BoundingProxy(scene, ProxySize(tileSize, baseSize, blueprint, sameObject));
    trimmers := CreateSixTrimmers(scene, b, buffer, TrimmerNames(tileName), zPosAsWritten);
    scene.cursor := cursorOrig;
  }

  /**
   * The origin move and the registration loop of `create_cuboid_tile_trimmers`
   * on the six trimmers drawn into `boxes`. The origin move reaches all six
   * when `allSelected`, otherwise only the last one drawn, the one left
   * selected; the others keep their origins.
   */
  method PlaceTrimmers(trimmers: seq<Obj>, cursor: Vec3, empty: Obj, ghost names: seq<string>, ghost boxes: seq<Extent>,
                       allSelected: bool)
    requires |trimmers| == 6 && |boxes| == 6 && |names| == 6 && Distinct(trimmers) && empty !in trimmers
    requires forall i :: 0 <= i < 6 ==> trimmers[i].name == names[i] && Box(trimmers[i]) == boxes[i]
    modifies (set t | t in trimmers)`location, (set t | t in trimmers)`offset, (set t | t in trimmers)`display
    modifies (set t | t in trimmers)`parent, (set t | t in trimmers)`geometryType, empty`trimmers
    ensures forall i :: 0 <= i < 6 ==>
      Box(trimmers[i]) == boxes[i] && trimmers[i].display == Bounds && trimmers[i].parent == empty.name &&
      trimmers[i].geometryType == Trimmer
    ensures allSelected ==> forall i :: 0 <= i < 6 ==> trimmers[i].location == cursor
    ensures !allSelected ==>
      trimmers[5].location == cursor && forall i :: 0 <= i < 5 ==> trimmers[i].location == old(trimmers[i].location)
    ensures empty.trimmers == old(empty.trimmers) + CutterItemsOff(names, empty.name)
  {
    MoveOrigins(trimmers, cursor, boxes, allSelected);
    RegisterTrimmers(trimmers, empty, names);
  }

  /**
   * The origin move of `create_cuboid_tile_trimmers` on the six trimmers
   * drawn into `boxes`: all six when `allSelected`, otherwise only the last
   * one drawn, the one left selected.
   */
  method MoveOrigins(trimmers: seq<Obj>, cursor: Vec3, ghost boxes: seq<Extent>, allSelected: bool)
    requires |trimmers| == 6 && |boxes| == 6 && Distinct(trimmers)
    requires forall i :: 0 <= i < 6 ==> Box(trimmers[i]) == boxes[i]
    modifies (set t | t in trimmers)`location, (set t | t in trimmers)`offset
    ensures forall i :: 0 <= i < 6 ==> Box(trimmers[i]) == boxes[i]
    ensures allSelected ==> forall i :: 0 <= i < 6 ==> trimmers[i].location == cursor
    ensures !allSelected ==>
      trimmers[5].location == cursor && forall i :: 0 <= i < 5 ==> trimmers[i].location == old(trimmers[i].location)
  {
    if allSelected {
      OriginSet(trimmers, cursor);
    } else {
      var selected := [trimmers[5]];
      assert forall i :: 0 <= i < 5 ==> trimmers[i] !in selected;
      OriginSet(selected, cursor);
      assert selected[0] == trimmers[5];
    }
  }

  /**
   * `create_cuboid_tile_trimmers` as written: the bounding proxy, its six
   * trimmers with the Z Pos one drawn as written, the cursor back where it
   * was, and each trimmer registered on the tile's empty. The origin move
   * runs without the context built for it, so it acts on the selection,
   * which each builder cleared before drawing: only the last trimmer drawn,
   * Z Neg, has its origin moved to the cursor; the other five keep theirs
   * where their turtles were added, the first at the cursor and each later
   * one where the turtle before it stopped. (The proxy is deleted at the end.)
   */
  method CreateCuboidTileTrimmersAsWritten(scene: Scene, tileSize: Vec3, baseSize: Vec3, tileName: string, blueprint: string,
                                           sameObject: bool, empty: Obj, buffer: real)
    returns (trimmers: seq<Obj>)
    requires sameObject ==> blueprint == "NONE"
    requires tileSize.x >= 0.0 && tileSize.y >= 0.0 && tileSize.z >= 0.0 && baseSize.y >= 0.0
    modifies scene`cursor, empty`trimmers
    ensures scene.cursor == old(scene.cursor)
    ensures |trimmers| == 6 && forall i :: 0 <= i < 6 ==> fresh(trimmers[i])
    ensures NamesOf(trimmers) == TrimmerNames(tileName)
    ensures var b := ProxyExtent(ProxySize(tileSize, baseSize, blueprint, sameObject));
      (forall i :: 0 <= i < 6 && i != 4 ==> Box(trimmers[i]) == Slab(Sides[i], b, buffer)) &&
      Box(trimmers[4]) == ZPosAsWritten(b, buffer)
    ensures var b := ProxyExtent(ProxySize(tileSize, baseSize, blueprint, sameObject));
      forall i :: 0 <= i < 5 ==> trimmers[i].location == TrimmerOrigins(scene.cursor, TrimmerBoxes(b, buffer, true))[i]
    ensures trimmers[5].location == scene.cursor
    ensures forall i :: 0 <= i < 6 ==>
      trimmers[i].display == Bounds && trimmers[i].parent == empty.name && trimmers[i].geometryType == Trimmer
    ensures empty.trimmers == old(empty.trimmers) + CutterItemsOff(TrimmerNames(tileName), empty.name)
  {
    trimmers := DrawTrimmers(scene, tileSize, baseSize, tileName, blueprint, sameObject, buffer, true);
    ghost var b := ProxyExtent(ProxySize(tileSize, baseSize, blueprint, sameObject));
    TrimmerBoxesSpec(b, buffer);
    PlaceTrimmers(trimmers, scene.cursor, empty, TrimmerNames(tileName), TrimmerBoxes(b, buffer, true), false);
    NamesUnchanged(trimmers, TrimmerNames(tileName));
  }

  /**
   * As written, the origin move misses the other trimmers: for a 1 x 1 x 1
   * tile with no base, buffer 0.1 and the cursor at the world origin, the
   * X Neg turtle stops at (-0.9, 1, 1.5), so the X Pos trimmer keeps its
   * origin there, away from the cursor.
   */
  lemma XPosOriginAsWritten()
    ensures var b := ProxyExtent(ProxySize(Vec3(1.0, 1.0, 1.0), Vec3(1.0, 1.0, 1.0), "NONE", true));
      var o := TrimmerOrigins(Origin, TrimmerBoxes(b, 0.1, true))[1];
      o == Vec3(-0.9, 1.0, 1.5) && o != Origin
  {
  }

  /**
   * `create_cuboid_tile_trimmers` as evidently intended: the Z Pos trimmer
   * drawn as the mirror of Z Neg, and the origin move applied to all six
   * trimmers as the context built for it lists them, so every trimmer has
   * its origin at the cursor and trims exactly its side's slab.
   */
  method CreateCuboidTileTrimmers(scene: Scene, tileSize: Vec3, baseSize: Vec3, tileName: string, blueprint: string,
                                  sameObject: bool, empty: Obj, buffer: real)
    returns (trimmers: seq<Obj>)
    requires sameObject ==> blueprint == "NONE"
    requires tileSize.x >= 0.0 && tileSize.y >= 0.0 && tileSize.z >= 0.0 && baseSize.y >= 0.0
    modifies scene`cursor, empty`trimmers
    ensures scene.cursor == old(scene.cursor)
    ensures |trimmers| == 6 && forall i :: 0 <= i < 6 ==> fresh(trimmers[i])
    ensures NamesOf(trimmers) == TrimmerNames(tileName)
    ensures var b := ProxyExtent(ProxySize(tileSize, baseSize, blueprint, sameObject));
      forall i :: 0 <= i < 6 ==>
        Box(trimmers[i]) == Slab(Sides[i], b, buffer) && trimmers[i].location == scene.cursor &&
        trimmers[i].display == Bounds && trimmers[i].parent == empty.name && trimmers[i].geometryType == Trimmer
    ensures empty.trimmers == old(empty.trimmers) + CutterItemsOff(TrimmerNames(tileName), empty.name)
  {
    trimmers := DrawTrimmers(scene, tileSize, baseSize, tileName, blueprint, sameObject, buffer, false);
    ghost var b := ProxyExtent(ProxySize(tileSize, baseSize, blueprint, sameObject));
    TrimmerBoxesSpec(b, buffer);
    PlaceTrimmers(trimmers, scene.cursor, empty, TrimmerNames(tileName), TrimmerBoxes(b, buffer, false), true);
    NamesUnchanged(trimmers, TrimmerNames(tileName));
  }

  /*** Trimmer booleans ***/

  /** The boolean `add_bool_modifier` gives a tile for a trimmer: a DIFFERENCE, off in the viewport. */
  function TrimmerBool(trimmer: string): (r: Modifier)
    ensures r.name == BoolName(trimmer) && !r.showViewport && r.showRender
    ensures r.(showViewport := true) == CutterBool(trimmer, false)
  {
    CutterBool(trimmer, false).(showViewport := false)
  }

  /**
   * `add_bool_modifier`: the tile gets the trimmer's boolean, and the
   * trimmer is parented to the tile, drawn as bounds and hidden.
   */
  method AddBoolModifier(obj: Obj, trimmer: Obj)
    requires obj != trimmer
    modifies obj`modifiers, trimmer`parent, trimmer`display, trimmer`hideViewport
    ensures obj.modifiers == old(obj.modifiers) + [TrimmerBool(trimmer.name)]
    ensures trimmer.parent == obj.name && trimmer.display == Bounds && trimmer.hideViewport
  {
    obj.AddModifier(TrimmerBool(trimmer.name));
    trimmer.parent := obj.name;
    trimmer.display := Bounds;
    trimmer.hideViewport := true;
  }

  /**
   * `trim_side`: the trimmer's boolean on the tile is shown in the viewport;
   * `false` where the lookup by name raises KeyError, leaving the tile as it was.
   */
  method TrimSide(obj: Obj, trimmer: string) returns (found: bool)
    modifies obj`modifiers
    ensures found == FindModifier(old(obj.modifiers), BoolName(trimmer)).Some?
    ensures found ==> var k := FindModifier(old(obj.modifiers), BoolName(trimmer)).value;
      obj.modifiers == old(obj.modifiers)[k := old(obj.modifiers)[k].(showViewport := true)]
    ensures !found ==> obj.modifiers == old(obj.modifiers)
  {
    found := obj.SetShowViewport(BoolName(trimmer), true);
  }

  /**
   * A trimmer whose boolean was added to a tile that had no boolean of that
   * name starts off, and `trim_side` turns exactly that boolean on, making
   * it the cutter boolean with render on; no other modifier changes.
   */
  lemma {:induction false} TrimSideEnables(before: seq<Modifier>, trimmer: string)
    requires forall k :: 0 <= k < |before| ==> before[k].name != BoolName(trimmer)
    ensures FindModifier(before + [TrimmerBool(trimmer)], BoolName(trimmer)) == Some(|before|)
    ensures (before + [TrimmerBool(trimmer)])[|before| := TrimmerBool(trimmer).(showViewport := true)] ==
      before + [CutterBool(trimmer, false)]
  {
    FindModifierAppend(before, [TrimmerBool(trimmer)], BoolName(trimmer));
    assert FindModifier([TrimmerBool(trimmer)], BoolName(trimmer)) == Some(0);
  }

  /*** The curved trimmer ***/

  /** What `create_curved_trimmer` draws. */
  datatype CurvedShape =
    /** `draw_curved_slab` of this radius, arc, height, width and segment count. */
    | CurvedSlab(radius: real, arc: real, height: real, width: real, segments: int, drop: real)
    /** Two turtle arcs of these radii, bridged, extruded up by `height`. */
    | ArcPair(outer: real, inner: real, arc: real, segments: int, height: real, drop: real)

  /** The bottom and top of a curved trimmer after it is dropped. */
  function Bottom(c: CurvedShape): real { -c.drop }
  function Top(c: CurvedShape): real { c.height - c.drop }

  /**
   * The branch of `create_curved_trimmer`: for curve type 'POS' a curved slab
   * at the radius less the buffer; otherwise arcs at the radius plus the
   * buffer and the radius less the width, bridged and raised by the height
   * plus 1. Either way the result is moved down 0.5.
   */
  function CurvedTrimmer(arc: real, radius: real, height: real, width: real, curveType: string, segments: int, buffer: real): (r: CurvedShape)
    ensures r.drop == 0.5 && r.arc == arc && r.segments == segments
    ensures r.CurvedSlab? <==> curveType == "POS"
    ensures r.ArcPair? ==> r.outer == radius + buffer && r.inner == radius - width
    ensures r.CurvedSlab? ==> r.radius == radius - buffer && r.width == width
  {
    if curveType == "POS" then CurvedSlab(radius - buffer, arc, height, width, segments, 0.5)
    else ArcPair(radius + buffer, radius - width, arc, segments, height + 1.0, 0.5)
  }

  /**
   * Called with the tile's height plus 1, as the curved floor does, either
   * branch reaches from 0.5 below the tile to at least 0.5 above it; the
   * turtle branch reaches 1 higher still.
   */
  lemma CurvedTrimmerSpansTile(arc: real, radius: real, tileHeight: real, width: real, curveType: string, segments: int, buffer: real)
    ensures var c := CurvedTrimmer(arc, radius, tileHeight + 1.0, width, curveType, segments, buffer);
      Bottom(c) == -0.5 && Top(c) >= tileHeight + 0.5 &&
      (c.ArcPair? ==> Top(c) == tileHeight + 1.5)
  {
  }
}
