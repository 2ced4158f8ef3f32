/**
 * The vertex-zone classifier of the angled (L) tiles: after the corner core
 * has been drawn, it walks the recorded reference coordinates of the core's
 * footprint layer by layer, selects for each coordinate the mesh vertex (or
 * vertices) within a tolerance, and assigns the selection to one of ten
 * vertex groups (Leg 1/Leg 2 x End/Inner/Outer/Top/Bottom).
 *
 * The host's `vectors_are_close` and `shortest_path_select` are not part of
 * this model; they are fields of `Mesh`, so every property below holds for
 * any closeness test and any path operator (or, where stated, for any path
 * operator that keeps the vertices it is given selected).
 */
module CornerZones {
  import opened Common

  datatype Leg = Leg1 | Leg2
  datatype Side = End | Inner | Outer | Top | Bottom
  datatype Zone = Zone(leg: Leg, side: Side)

  /** The ten vertex groups the classifier creates. */
  const AllZones: set<Zone> :=
    {Zone(Leg1, End), Zone(Leg2, End), Zone(Leg1, Inner), Zone(Leg2, Inner),
     Zone(Leg1, Outer), Zone(Leg2, Outer), Zone(Leg1, Top), Zone(Leg2, Top),
     Zone(Leg1, Bottom), Zone(Leg2, Bottom)}

  /** The zones whose reference coordinates the core drawing records. */
  predicate Recorded(z: Zone)
  {
    z.side == End || z.side == Inner || z.side == Outer
  }

  /** `vert_locs` holds the recorded coordinates of every Inner, Outer and End zone. */
  ghost predicate HasRecorded(vertLocs: map<Zone, seq<Vec3>>)
  {
    forall z: Zone :: Recorded(z) ==> z in vertLocs
  }

  /** Contents of group `z`; a group that does not exist holds nothing. */
  function Get(g: map<Zone, set<nat>>, z: Zone): set<nat>
  {
    if z in g then g[z] else {}
  }

  /** Name of the vertex group of a zone, e.g. "Leg 2 Inner". */
  function ZoneName(z: Zone): (r: string)
    ensures |r| >= 9 && r[..4] == "Leg " && r[5] == ' '
    ensures r[4] == (if z.leg == Leg1 then '1' else '2')
  {
    (if z.leg == Leg1 then "Leg 1 " else "Leg 2 ") +
    match z.side
    case End => "End"
    case Inner => "Inner"
    case Outer => "Outer"
    case Top => "Top"
    case Bottom => "Bottom"
  }

  /** Tolerance of every search except the floor tile's Top zones. */
  const Tight: real := 0.0001
  /** Tolerance of the floor tile's Top-zone searches. */
  const Loose: real := 0.0005

  /**
   * The edit-mode mesh: vertex coordinates in `bm.verts` order, the host's
   * closeness test (point, reference, tolerance) and the host's
   * shortest-path selection as a map from a selection to the new selection.
   */
  datatype Mesh = Mesh(co: seq<Vec3>, close: (Vec3, Vec3, real) -> bool, path: set<nat> -> set<nat>)

  /** Path selection never drops a vertex it was given. */
  ghost predicate Extensive(m: Mesh)
  {
    forall s: set<nat> :: s <= m.path(s)
  }

  // ----- searching the vertex list -----------------------------------------

  /** Index of the first vertex at or after `j` that is close to `c`. */
  function FirstFrom(m: Mesh, c: Vec3, tol: real, j: nat): Option<nat>
    decreases |m.co| - j
  {
    if j >= |m.co| then None
    else if m.close(m.co[j], c, tol) then Some(j)
    else FirstFrom(m, c, tol, j + 1)
  }

  lemma {:induction false} FirstFromSpec(m: Mesh, c: Vec3, tol: real, j: nat)
    ensures FirstFrom(m, c, tol, j).Some? ==>
      var k := FirstFrom(m, c, tol, j).value;
      j <= k < |m.co| && m.close(m.co[k], c, tol) &&
      forall i :: j <= i < k ==> !m.close(m.co[i], c, tol)
    ensures FirstFrom(m, c, tol, j).None? ==>
      forall i :: j <= i < |m.co| ==> !m.close(m.co[i], c, tol)
    decreases |m.co| - j
  {
    if j < |m.co| && !m.close(m.co[j], c, tol) {
      FirstFromSpec(m, c, tol, j + 1);
    }
  }

  /** What one `for v in bm.verts: if close: select; break` loop selects. */
  function FirstMatch(m: Mesh, c: Vec3, tol: real): set<nat>
  {
    match FirstFrom(m, c, tol, 0)
    case None => {}
    case Some(k) => {k}
  }

  /** What the same loop selects without its `break`. */
  function AllClose(m: Mesh, c: Vec3, tol: real): set<nat>
  {
    set j: nat | j < |m.co| && m.close(m.co[j], c, tol)
  }

  function Pick(m: Mesh, c: Vec3, tol: real, firstOnly: bool): set<nat>
  {
    if firstOnly then FirstMatch(m, c, tol) else AllClose(m, c, tol)
  }

  /** Selection made by searching once for each coordinate of a list. */
  function FirstMatches(m: Mesh, cs: seq<Vec3>, tol: real): set<nat>
    decreases |cs|
  {
    if cs == [] then {}
    else FirstMatches(m, cs[..|cs| - 1], tol) + FirstMatch(m, cs[|cs| - 1], tol)
  }

  /**
   * A search with `break` selects at most one vertex: the first one in mesh
   * order within the tolerance, and one exists exactly when some vertex is
   * close.
   */
  lemma FirstMatchSpec(m: Mesh, c: Vec3, tol: real)
    ensures |FirstMatch(m, c, tol)| <= 1
    ensures forall k :: k in FirstMatch(m, c, tol) <==>
      0 <= k < |m.co| && m.close(m.co[k], c, tol) && forall i :: 0 <= i < k ==> !m.close(m.co[i], c, tol)
    ensures FirstMatch(m, c, tol) == {} <==> AllClose(m, c, tol) == {}
    ensures FirstMatch(m, c, tol) <= AllClose(m, c, tol)
  {
    FirstFromSpec(m, c, tol, 0);
    if FirstFrom(m, c, tol, 0).None? {
      assert forall w :: w !in AllClose(m, c, tol);
    } else {
      var k := FirstFrom(m, c, tol, 0).value;
      assert k in AllClose(m, c, tol);
    }
  }

  /**
   * Searching for a list of coordinates selects at most one vertex per
   * coordinate, and exactly the first matches of those coordinates.
   */
  lemma {:induction false} FirstMatchesSpec(m: Mesh, cs: seq<Vec3>, tol: real)
    ensures |FirstMatches(m, cs, tol)| <= |cs|
    ensures forall v :: v in FirstMatches(m, cs, tol) <==>
      exists i :: 0 <= i < |cs| && v in FirstMatch(m, cs[i], tol)
    decreases |cs|
  {
    if cs != [] {
      var init := cs[..|cs| - 1];
      var last := FirstMatch(m, cs[|cs| - 1], tol);
      FirstMatchesSpec(m, init, tol);
      FirstMatchSpec(m, cs[|cs| - 1], tol);
      assert FirstMatches(m, cs, tol) == FirstMatches(m, init, tol) + last;
      UnionSize(FirstMatches(m, init, tol), last);
      forall v | v in FirstMatches(m, cs, tol)
        ensures exists i :: 0 <= i < |cs| && v in FirstMatch(m, cs[i], tol)
      {
        if v in FirstMatches(m, init, tol) {
          var i :| 0 <= i < |init| && v in FirstMatch(m, init[i], tol);
          assert cs[i] == init[i];
        } else {
          assert v in FirstMatch(m, cs[|cs| - 1], tol);
        }
      }
      forall v, i | 0 <= i < |cs| && v in FirstMatch(m, cs[i], tol)
        ensures v in FirstMatches(m, cs, tol)
      {
        if i < |cs| - 1 {
          assert init[i] == cs[i];
        }
      }
    }
  }

  lemma UnionSize(a: set<nat>, b: set<nat>)
    ensures |a + b| <= |a| + |b|
  {
    assert |a + b| == |a| + |b| - |a * b|;
  }

  /** Without `break` the search can select several vertices for one coordinate. */
  lemma AllCloseMayExceedOne()
    ensures var m := Mesh([Origin, Origin], (a: Vec3, b: Vec3, t: real) => a == b, (s: set<nat>) => s);
      |AllClose(m, Origin, Loose)| == 2 && |FirstMatch(m, Origin, Loose)| == 1
  {
    var m := Mesh([Origin, Origin], (a: Vec3, b: Vec3, t: real) => a == b, (s: set<nat>) => s);
    assert AllClose(m, Origin, Loose) == {0, 1};
    assert FirstFrom(m, Origin, Loose, 0) == Some(0);
  }

  // ----- layer offsets -----------------------------------------------------

  /** `subdiv_dist`: the height left after the two 0.001 bands, split into n layers. */
  function SubdivDist(h: real, n: int): real
    requires n != 0
  {
    (h - 0.002) / (n as real)
  }

  /** The n layers of `SubdivDist` span the height less the two bands. */
  lemma SubdivDistSpans(h: real, n: int)
    requires n >= 1
    ensures (n as real) * SubdivDist(h, n) == h - 0.002
  {
  }

  /** Number of times a `while i <= n` loop runs (none when n is negative). */
  function UpTo(n: int): nat
  {
    if n >= 0 then n + 1 else 0
  }

  /** Number of times a `while i < n` loop runs. */
  function Below(n: int): nat
  {
    if n >= 0 then n else 0
  }

  /** The offsets reached by raising the last one by `d`, `count` times over. */
  function Extend(offs: seq<real>, d: real, count: nat): (r: seq<real>)
    requires offs != []
    ensures |r| == |offs| + count && r[..|offs|] == offs
  {
    if count == 0 then offs
    else
      var p := Extend(offs, d, count - 1);
      p + [p[|p| - 1] + d]
  }

  /** The first k subdivided End layers above the two bands. */
  function SubdivLayers(d: real, k: nat): (r: seq<real>)
    ensures |r| == k + 2
  {
    Extend([0.0, 0.001], d, k)
  }

  /** The highest of those layers. */
  function SubdivTop(d: real, k: nat): real
  {
    SubdivLayers(d, k)[k + 1]
  }

  lemma {:induction false} ExtendAt(offs: seq<real>, d: real, count: nat, k: nat)
    requires offs != [] && k <= count
    ensures Extend(offs, d, count)[|offs| - 1 + k] == offs[|offs| - 1] + (k as real) * d
    decreases count
  {
    if k < count {
      ExtendAt(offs, d, count - 1, k);
      var p := Extend(offs, d, count - 1);
      assert Extend(offs, d, count)[|offs| - 1 + k] == p[|offs| - 1 + k];
    } else if count > 0 {
      ExtendAt(offs, d, count - 1, k - 1);
    }
  }

  /** Heights above the recorded coordinates probed for the Inner and Outer zones. */
  function SideOffsets(h: real, n: int): seq<real>
    requires n != 0
  {
    Extend([0.0, 0.001], SubdivDist(h, n), UpTo(n))
  }

  /** Heights probed for the End zones: the side layers but one, then a last +0.001. */
  function EndOffsets(h: real, n: int): seq<real>
    requires n != 0
  {
    var s := Extend([0.0, 0.001], SubdivDist(h, n), Below(n));
    s + [s[|s| - 1] + 0.001]
  }

  /** The first two probed layers of any offsets built from `[0, 0.001]`. */
  lemma {:induction false} ExtendStart(d: real, count: nat)
    ensures var o := Extend([0.0, 0.001], d, count); o[0] == 0.0 && o[1] == 0.001
  {
    var o := Extend([0.0, 0.001], d, count);
    assert o[..2] == [0.0, 0.001];
    assert o[0] == o[..2][0] && o[1] == o[..2][1];
  }

  /** One subdivided layer of the Inner and Outer probes. */
  lemma SideOffsetAt(h: real, n: int, i: int)
    requires n >= 1 && 2 <= i < n + 3
    ensures SideOffsets(h, n)[i] == 0.001 + ((i - 1) as real) * SubdivDist(h, n)
  {
    ExtendAt([0.0, 0.001], SubdivDist(h, n), UpTo(n), i - 1);
  }

  /**
   * Inner and Outer probe 0 and 0.001, then 0.001 + k*d for k = 1 .. n+1, so
   * the last probed layer lies d - 0.001 above the object's height.
   */
  lemma SideOffsetsShape(h: real, n: int)
    requires n >= 1
    ensures var o := SideOffsets(h, n);
      |o| == n + 3 && o[0] == 0.0 && o[1] == 0.001 &&
      (forall i :: 2 <= i < |o| ==> o[i] == 0.001 + ((i - 1) as real) * SubdivDist(h, n)) &&
      o[n + 2] == h - 0.001 + SubdivDist(h, n)
  {
    ExtendStart(SubdivDist(h, n), UpTo(n));
    forall i | 2 <= i < n + 3
      ensures SideOffsets(h, n)[i] == 0.001 + ((i - 1) as real) * SubdivDist(h, n)
    {
      SideOffsetAt(h, n, i);
    }
    SideOffsetAt(h, n, n + 2);
    SubdivDistSpans(h, n);
  }

  /** One subdivided layer of the End probes. */
  lemma EndOffsetAt(h: real, n: int, i: int)
    requires n >= 1 && 2 <= i < n + 2
    ensures EndOffsets(h, n)[i] == 0.001 + ((i - 1) as real) * SubdivDist(h, n)
  {
    var s := Extend([0.0, 0.001], SubdivDist(h, n), Below(n));
    assert EndOffsets(h, n)[i] == s[i];
    ExtendAt([0.0, 0.001], SubdivDist(h, n), Below(n), i - 1);
  }

  /** The last End probe lies exactly at the object's height. */
  lemma EndOffsetLast(h: real, n: int)
    requires n >= 1
    ensures |EndOffsets(h, n)| == n + 3 && EndOffsets(h, n)[n + 2] == h
  {
    var d := SubdivDist(h, n);
    var s := Extend([0.0, 0.001], d, Below(n));
    assert EndOffsets(h, n)[n + 2] == s[n + 1] + 0.001;
    ExtendAt([0.0, 0.001], d, Below(n), n);
    SubdivDistSpans(h, n);
  }

  /**
   * End zones probe 0 and 0.001, then 0.001 + k*d for k = 1 .. n, then a last
   * layer exactly at the object's height.
   */
  lemma EndOffsetsShape(h: real, n: int)
    requires n >= 1
    ensures var o := EndOffsets(h, n);
      |o| == n + 3 && o[0] == 0.0 && o[1] == 0.001 &&
      (forall i :: 2 <= i < |o| - 1 ==> o[i] == 0.001 + ((i - 1) as real) * SubdivDist(h, n)) &&
      o[|o| - 1] == h
  {
    var s := Extend([0.0, 0.001], SubdivDist(h, n), Below(n));
    ExtendStart(SubdivDist(h, n), Below(n));
    assert EndOffsets(h, n)[0] == s[0] && EndOffsets(h, n)[1] == s[1];
    forall i | 2 <= i < n + 2
      ensures EndOffsets(h, n)[i] == 0.001 + ((i - 1) as real) * SubdivDist(h, n)
    {
      EndOffsetAt(h, n, i);
    }
    EndOffsetLast(h, n);
  }

  // ----- what each procedure adds to its group ----------------------------

  /** Inner/Outer: first matches on every layer, accumulated without deselecting. */
  function LayerUnion(m: Mesh, coords: seq<Vec3>, offs: seq<real>): set<nat>
    decreases |offs|
  {
    if offs == [] then {}
    else LayerUnion(m, coords, offs[..|offs| - 1]) + FirstMatches(m, Lift(coords, offs[|offs| - 1]), Tight)
  }

  /** End: on every layer, the path through that layer's first matches. */
  function PathUnion(m: Mesh, coords: seq<Vec3>, offs: seq<real>): set<nat>
    decreases |offs|
  {
    if offs == [] then {}
    else PathUnion(m, coords, offs[..|offs| - 1]) + m.path(FirstMatches(m, Lift(coords, offs[|offs| - 1]), Tight))
  }

  /** One more layer adds the path through that layer's first matches. */
  lemma PathUnionSnoc(m: Mesh, coords: seq<Vec3>, offs: seq<real>, dz: real)
    ensures PathUnion(m, coords, offs + [dz]) == PathUnion(m, coords, offs) + m.path(FirstMatches(m, Lift(coords, dz), Tight))
  {
    assert (offs + [dz])[..|offs|] == offs;
  }

  /** Top/Bottom: for each index both lists have, the path between the two matches. */
  function PairUnion(m: Mesh, inner: seq<Vec3>, outer: seq<Vec3>, tol: real, firstOnly: bool): set<nat>
    decreases |inner|
  {
    var k := Min(|inner|, |outer|);
    if k == 0 then {}
    else
      PairUnion(m, inner[..k - 1], outer[..k - 1], tol, firstOnly) +
      m.path(Pick(m, inner[k - 1], tol, firstOnly) + Pick(m, outer[k - 1], tol, firstOnly))
  }

  /**
   * A vertex is in an Inner/Outer zone exactly when it is the first match of
   * some recorded coordinate raised to some probed layer.
   */
  lemma {:induction false} LayerUnionSpec(m: Mesh, coords: seq<Vec3>, offs: seq<real>)
    ensures forall v :: v in LayerUnion(m, coords, offs) <==>
      exists i, j :: 0 <= i < |offs| && 0 <= j < |coords| && v in FirstMatch(m, Up(coords[j], offs[i]), Tight)
    decreases |offs|
  {
    if offs != [] {
      var init := offs[..|offs| - 1];
      var lc := Lift(coords, offs[|offs| - 1]);
      LayerUnionSpec(m, coords, init);
      FirstMatchesSpec(m, lc, Tight);
      forall v | v in LayerUnion(m, coords, offs)
        ensures exists i, j :: 0 <= i < |offs| && 0 <= j < |coords| && v in FirstMatch(m, Up(coords[j], offs[i]), Tight)
      {
        if v in LayerUnion(m, coords, init) {
          var i, j :| 0 <= i < |init| && 0 <= j < |coords| && v in FirstMatch(m, Up(coords[j], init[i]), Tight);
          assert offs[i] == init[i];
        } else {
          var j :| 0 <= j < |lc| && v in FirstMatch(m, lc[j], Tight);
          assert lc[j] == Up(coords[j], offs[|offs| - 1]);
        }
      }
      forall v, i, j | 0 <= i < |offs| && 0 <= j < |coords| && v in FirstMatch(m, Up(coords[j], offs[i]), Tight)
        ensures v in LayerUnion(m, coords, offs)
      {
        if i < |offs| - 1 {
          assert init[i] == offs[i];
        } else {
          assert lc[j] == Up(coords[j], offs[i]);
        }
      }
    }
  }

  lemma MulSucc(a: nat, b: nat)
    ensures (a + 1) * b == a * b + b
  {
  }

  /** An Inner/Outer zone holds at most one vertex per coordinate and layer. */
  lemma {:induction false} LayerUnionSize(m: Mesh, coords: seq<Vec3>, offs: seq<real>)
    ensures |LayerUnion(m, coords, offs)| <= |offs| * |coords|
    decreases |offs|
  {
    if offs != [] {
      var init := offs[..|offs| - 1];
      LayerUnionSize(m, coords, init);
      FirstMatchesSpec(m, Lift(coords, offs[|offs| - 1]), Tight);
      var a, b := LayerUnion(m, coords, init), FirstMatches(m, Lift(coords, offs[|offs| - 1]), Tight);
      assert |a + b| <= |a| + |b|;
      MulSucc(|init|, |coords|);
    }
  }

  /**
   * When path selection keeps its input, an End zone contains the first
   * match of every recorded coordinate on every probed layer.
   */
  lemma {:induction false} PathUnionCovers(m: Mesh, coords: seq<Vec3>, offs: seq<real>, i: nat, j: nat)
    requires Extensive(m) && i < |offs| && j < |coords|
    ensures FirstMatch(m, Up(coords[j], offs[i]), Tight) <= PathUnion(m, coords, offs)
    decreases |offs|
  {
    var init := offs[..|offs| - 1];
    if i < |offs| - 1 {
      assert init[i] == offs[i];
      PathUnionCovers(m, coords, init, i, j);
    } else {
      var lc := Lift(coords, offs[i]);
      FirstMatchesSpec(m, lc, Tight);
      assert lc[j] == Up(coords[j], offs[i]);
      assert FirstMatches(m, lc, Tight) <= m.path(FirstMatches(m, lc, Tight));
    }
  }

  /**
   * Top/Bottom pairing handles exactly min(|inner|, |outer|) pairs: entries
   * past the shorter list are ignored, and every vertex of the zone comes
   * from one of those pairs.
   */
  lemma {:induction false} PairUnionSpec(m: Mesh, inner: seq<Vec3>, outer: seq<Vec3>, tol: real, firstOnly: bool)
    ensures var k := Min(|inner|, |outer|);
      PairUnion(m, inner, outer, tol, firstOnly) == PairUnion(m, inner[..k], outer[..k], tol, firstOnly)
    ensures forall v :: v in PairUnion(m, inner, outer, tol, firstOnly) ==>
      exists i :: 0 <= i < Min(|inner|, |outer|) &&
        v in m.path(Pick(m, inner[i], tol, firstOnly) + Pick(m, outer[i], tol, firstOnly))
    decreases |inner|
  {
    var k := Min(|inner|, |outer|);
    assert inner[..k][..k] == inner[..k] && outer[..k][..k] == outer[..k];
    if k > 0 {
      assert inner[..k][..k - 1] == inner[..k - 1] && outer[..k][..k - 1] == outer[..k - 1];
      var ii, oo := inner[..k - 1], outer[..k - 1];
      PairUnionSpec(m, ii, oo, tol, firstOnly);
      assert ii[..k - 1] == ii && oo[..k - 1] == oo;
      forall v | v in PairUnion(m, inner, outer, tol, firstOnly)
        ensures exists i :: (0 <= i < k &&
          v in m.path(Pick(m, inner[i], tol, firstOnly) + Pick(m, outer[i], tol, firstOnly)))
      {
        if v in PairUnion(m, ii, oo, tol, firstOnly) {
          var i :| 0 <= i < k - 1 && v in m.path(Pick(m, ii[i], tol, firstOnly) + Pick(m, oo[i], tol, firstOnly));
          assert ii[i] == inner[i] && oo[i] == outer[i];
        }
      }
    }
  }

  /** One more index of both lists adds that index's path. */
  lemma PairUnionSnoc(m: Mesh, inner: seq<Vec3>, outer: seq<Vec3>, tol: real, firstOnly: bool, i: nat)
    requires i < |inner| && i < |outer|
    ensures PairUnion(m, inner[..i + 1], outer[..i + 1], tol, firstOnly)
      == PairUnion(m, inner[..i], outer[..i], tol, firstOnly) + m.path(Pick(m, inner[i], tol, firstOnly) + Pick(m, outer[i], tol, firstOnly))
  {
    assert inner[..i + 1][..i] == inner[..i] && outer[..i + 1][..i] == outer[..i];
  }

  /** With a path operator that keeps its input, every paired match is in the zone. */
  lemma {:induction false} PairUnionCovers(m: Mesh, inner: seq<Vec3>, outer: seq<Vec3>, tol: real, firstOnly: bool, i: nat)
    requires Extensive(m) && i < |inner| && i < |outer|
    ensures Pick(m, inner[i], tol, firstOnly) + Pick(m, outer[i], tol, firstOnly) <= PairUnion(m, inner, outer, tol, firstOnly)
    decreases |inner|
  {
    var k := Min(|inner|, |outer|);
    var sel := Pick(m, inner[i], tol, firstOnly) + Pick(m, outer[i], tol, firstOnly);
    if i < k - 1 {
      var ii, oo := inner[..k - 1], outer[..k - 1];
      assert ii[i] == inner[i] && oo[i] == outer[i];
      PairUnionCovers(m, ii, oo, tol, firstOnly, i);
    } else {
      assert sel <= m.path(sel);
    }
  }

  // ----- the zones as a whole ---------------------------------------------

  /** Inner list reversed and paired with the outer list; for Top both are first raised by h. */
  function PairZone(m: Mesh, vertLocs: map<Zone, seq<Vec3>>, leg: Leg, h: real, top: bool, tol: real, firstOnly: bool): set<nat>
    requires Zone(leg, Inner) in vertLocs && Zone(leg, Outer) in vertLocs
  {
    var inner := Reverse(vertLocs[Zone(leg, Inner)]);
    var outer := vertLocs[Zone(leg, Outer)];
    if top then PairUnion(m, Lift(inner, h), Lift(outer, h), tol, firstOnly)
    else PairUnion(m, inner, outer, tol, firstOnly)
  }

  /** The recorded side zones of one leg: Inner, Outer and End. */
  function SideZones(m: Mesh, vertLocs: map<Zone, seq<Vec3>>, leg: Leg, h: real, n: int): set<nat>
    requires n != 0 && HasRecorded(vertLocs)
  {
    var so, eo := SideOffsets(h, n), EndOffsets(h, n);
    if leg == Leg1 then
      LayerUnion(m, vertLocs[Zone(Leg1, Inner)], so) + LayerUnion(m, vertLocs[Zone(Leg1, Outer)], so) +
      PathUnion(m, vertLocs[Zone(Leg1, End)], eo)
    else
      LayerUnion(m, vertLocs[Zone(Leg2, Inner)], so) + LayerUnion(m, vertLocs[Zone(Leg2, Outer)], so) +
      PathUnion(m, vertLocs[Zone(Leg2, End)], eo)
  }

  /** Assigning `acc` and then `step` to group `z` is assigning their union. */
  lemma AssignAgain(g: map<Zone, set<nat>>, z: Zone, acc: set<nat>, step: set<nat>)
    requires z in g
    ensures var b := g[z := g[z] + acc]; b[z := b[z] + step] == g[z := g[z] + (acc + step)]
  {
    assert g[z] + acc + step == g[z] + (acc + step);
  }

  /** Assigning one more End layer to a group holding the earlier layers. */
  lemma EndLayerStep(g0: map<Zone, set<nat>>, z: Zone, m: Mesh, coords: seq<Vec3>, offs: seq<real>, dz: real)
    requires z in g0
    ensures var b := g0[z := g0[z] + PathUnion(m, coords, offs)];
      b[z := b[z] + m.path(FirstMatches(m, Lift(coords, dz), Tight))] == g0[z := g0[z] + PathUnion(m, coords, offs + [dz])]
  {
    AssignAgain(g0, z, PathUnion(m, coords, offs), m.path(FirstMatches(m, Lift(coords, dz), Tight)));
    PathUnionSnoc(m, coords, offs, dz);
  }

  // ----- the groups after each phase --------------------------------------

  /**
   * The ten groups created empty; other groups kept. The object is taken to
   * have no group of these names yet: on a taken name the host makes a
   * numbered group ('Leg 1 End.001') instead, and the old group keeps its
   * vertices.
   */
  function Fresh(g: map<Zone, set<nat>>): (r: map<Zone, set<nat>>)
    ensures AllZones <= r.Keys
    ensures r[Zone(Leg1, End)] == {} && r[Zone(Leg2, End)] == {} && r[Zone(Leg1, Inner)] == {} && r[Zone(Leg2, Inner)] == {}
    ensures r[Zone(Leg1, Outer)] == {} && r[Zone(Leg2, Outer)] == {} && r[Zone(Leg1, Top)] == {} && r[Zone(Leg2, Top)] == {}
    ensures r[Zone(Leg1, Bottom)] == {} && r[Zone(Leg2, Bottom)] == {}
  {
    g[Zone(Leg1, End) := {}][Zone(Leg2, End) := {}]
     [Zone(Leg1, Inner) := {}][Zone(Leg2, Inner) := {}]
     [Zone(Leg1, Outer) := {}][Zone(Leg2, Outer) := {}]
     [Zone(Leg1, Top) := {}][Zone(Leg2, Top) := {}]
     [Zone(Leg1, Bottom) := {}][Zone(Leg2, Bottom) := {}]
  }

  /** `vertex_group_assign` of `s` to group `z`. */
  function Tagged(g: map<Zone, set<nat>>, z: Zone, s: set<nat>): map<Zone, set<nat>>
  {
    g[z := Get(g, z) + s]
  }

  /** After the Outer, Inner and End loops, in source order. */
  function AfterRecorded(g: map<Zone, set<nat>>, o1: set<nat>, o2: set<nat>, i1: set<nat>, i2: set<nat>, e1: set<nat>, e2: set<nat>): map<Zone, set<nat>>
  {
    Tagged(Tagged(Tagged(Tagged(Tagged(Tagged(g, Zone(Leg1, Outer), o1), Zone(Leg2, Outer), o2),
      Zone(Leg1, Inner), i1), Zone(Leg2, Inner), i2), Zone(Leg1, End), e1), Zone(Leg2, End), e2)
  }

  /** After the Bottom and Top loops, in source order. */
  function AfterPaired(g: map<Zone, set<nat>>, b1: set<nat>, b2: set<nat>, t1: set<nat>, t2: set<nat>): map<Zone, set<nat>>
  {
    Tagged(Tagged(Tagged(Tagged(g, Zone(Leg1, Bottom), b1), Zone(Leg2, Bottom), b2), Zone(Leg1, Top), t1), Zone(Leg2, Top), t2)
  }

  /** The groups after the Outer, Inner and End loops of either classifier. */
  function RecordedGroups(m: Mesh, g: map<Zone, set<nat>>, vertLocs: map<Zone, seq<Vec3>>, h: real, n: int): map<Zone, set<nat>>
    requires n != 0 && HasRecorded(vertLocs)
  {
    var so, eo := SideOffsets(h, n), EndOffsets(h, n);
    AfterRecorded(g,
      LayerUnion(m, vertLocs[Zone(Leg1, Outer)], so), LayerUnion(m, vertLocs[Zone(Leg2, Outer)], so),
      LayerUnion(m, vertLocs[Zone(Leg1, Inner)], so), LayerUnion(m, vertLocs[Zone(Leg2, Inner)], so),
      PathUnion(m, vertLocs[Zone(Leg1, End)], eo), PathUnion(m, vertLocs[Zone(Leg2, End)], eo))
  }

  /** The groups after the Bottom and Top loops (Top tolerance and Leg 2 `break` as given). */
  function PairedGroups(m: Mesh, g: map<Zone, set<nat>>, vertLocs: map<Zone, seq<Vec3>>, h: real, topTol: real, leg2TopFirstOnly: bool): map<Zone, set<nat>>
    requires HasRecorded(vertLocs)
  {
    AfterPaired(g,
      PairZone(m, vertLocs, Leg1, h, false, Tight, true), PairZone(m, vertLocs, Leg2, h, false, Tight, true),
      PairZone(m, vertLocs, Leg1, h, true, topTol, true), PairZone(m, vertLocs, Leg2, h, true, topTol, leg2TopFirstOnly))
  }

  /** `remove_verts_from_group` of a leg's Inner, Outer and End vertices from its Top group. */
  function Trimmed(g: map<Zone, set<nat>>, leg: Leg): map<Zone, set<nat>>
  {
    g[Zone(leg, Top) := Get(g, Zone(leg, Top)) - (Get(g, Zone(leg, Inner)) + Get(g, Zone(leg, Outer)) + Get(g, Zone(leg, End)))]
  }

  /** Ten fresh groups, each assigned once, end up holding exactly the set assigned to them: the six recorded zones. */
  lemma PhasesRecordedSpec(g: map<Zone, set<nat>>, o1: set<nat>, o2: set<nat>, i1: set<nat>, i2: set<nat>, e1: set<nat>, e2: set<nat>,
                           b1: set<nat>, b2: set<nat>, t1: set<nat>, t2: set<nat>)
    ensures var r := AfterPaired(AfterRecorded(Fresh(g), o1, o2, i1, i2, e1, e2), b1, b2, t1, t2);
      AllZones <= r.Keys &&
      r[Zone(Leg1, Outer)] == o1 && r[Zone(Leg2, Outer)] == o2 &&
      r[Zone(Leg1, Inner)] == i1 && r[Zone(Leg2, Inner)] == i2 &&
      r[Zone(Leg1, End)] == e1 && r[Zone(Leg2, End)] == e2
  {
    var f := Fresh(g);
    AfterRecordedSpec(f, o1, o2, i1, i2, e1, e2);
    var a := AfterRecorded(f, o1, o2, i1, i2, e1, e2);
    assert a[Zone(Leg1, Outer)] == o1 && a[Zone(Leg2, Outer)] == o2;
    assert a[Zone(Leg1, Inner)] == i1 && a[Zone(Leg2, Inner)] == i2;
    assert a[Zone(Leg1, End)] == e1 && a[Zone(Leg2, End)] == e2;
    AfterPairedSpec(a, b1, b2, t1, t2);
  }

  /** The same for the four paired zones, Bottom and Top. */
  lemma PhasesPairedSpec(g: map<Zone, set<nat>>, o1: set<nat>, o2: set<nat>, i1: set<nat>, i2: set<nat>, e1: set<nat>, e2: set<nat>,
                         b1: set<nat>, b2: set<nat>, t1: set<nat>, t2: set<nat>)
    ensures var r := AfterPaired(AfterRecorded(Fresh(g), o1, o2, i1, i2, e1, e2), b1, b2, t1, t2);
      r[Zone(Leg1, Bottom)] == b1 && r[Zone(Leg2, Bottom)] == b2 &&
      r[Zone(Leg1, Top)] == t1 && r[Zone(Leg2, Top)] == t2
  {
    var f := Fresh(g);
    AfterRecordedSpec(f, o1, o2, i1, i2, e1, e2);
    var a := AfterRecorded(f, o1, o2, i1, i2, e1, e2);
    assert a[Zone(Leg1, Bottom)] == {} && a[Zone(Leg2, Bottom)] == {};
    assert a[Zone(Leg1, Top)] == {} && a[Zone(Leg2, Top)] == {};
    AfterPairedSpec(a, b1, b2, t1, t2);
  }

  /** The Outer, Inner and End loops add to their six groups and leave Bottom and Top alone. */
  lemma AfterRecordedSpec(g: map<Zone, set<nat>>, o1: set<nat>, o2: set<nat>, i1: set<nat>, i2: set<nat>, e1: set<nat>, e2: set<nat>)
    requires AllZones <= g.Keys
    ensures var r := AfterRecorded(g, o1, o2, i1, i2, e1, e2);
      AllZones <= r.Keys &&
      r[Zone(Leg1, Outer)] == g[Zone(Leg1, Outer)] + o1 && r[Zone(Leg2, Outer)] == g[Zone(Leg2, Outer)] + o2 &&
      r[Zone(Leg1, Inner)] == g[Zone(Leg1, Inner)] + i1 && r[Zone(Leg2, Inner)] == g[Zone(Leg2, Inner)] + i2 &&
      r[Zone(Leg1, End)] == g[Zone(Leg1, End)] + e1 && r[Zone(Leg2, End)] == g[Zone(Leg2, End)] + e2 &&
      r[Zone(Leg1, Bottom)] == g[Zone(Leg1, Bottom)] && r[Zone(Leg2, Bottom)] == g[Zone(Leg2, Bottom)] &&
      r[Zone(Leg1, Top)] == g[Zone(Leg1, Top)] && r[Zone(Leg2, Top)] == g[Zone(Leg2, Top)]
  {
  }

  /** The Bottom and Top loops add to their four groups and leave the other six alone. */
  lemma AfterPairedSpec(g: map<Zone, set<nat>>, b1: set<nat>, b2: set<nat>, t1: set<nat>, t2: set<nat>)
    requires AllZones <= g.Keys
    ensures var r := AfterPaired(g, b1, b2, t1, t2);
      AllZones <= r.Keys &&
      r[Zone(Leg1, Outer)] == g[Zone(Leg1, Outer)] && r[Zone(Leg2, Outer)] == g[Zone(Leg2, Outer)] &&
      r[Zone(Leg1, Inner)] == g[Zone(Leg1, Inner)] && r[Zone(Leg2, Inner)] == g[Zone(Leg2, Inner)] &&
      r[Zone(Leg1, End)] == g[Zone(Leg1, End)] && r[Zone(Leg2, End)] == g[Zone(Leg2, End)] &&
      r[Zone(Leg1, Bottom)] == g[Zone(Leg1, Bottom)] + b1 && r[Zone(Leg2, Bottom)] == g[Zone(Leg2, Bottom)] + b2 &&
      r[Zone(Leg1, Top)] == g[Zone(Leg1, Top)] + t1 && r[Zone(Leg2, Top)] == g[Zone(Leg2, Top)] + t2
  {
  }

  /** Removing side vertices from both Top groups changes those two groups only. */
  lemma TrimmedSpec(p: map<Zone, set<nat>>)
    requires AllZones <= p.Keys
    ensures var r := Trimmed(Trimmed(p, Leg1), Leg2);
      AllZones <= r.Keys &&
      r[Zone(Leg1, Outer)] == p[Zone(Leg1, Outer)] && r[Zone(Leg2, Outer)] == p[Zone(Leg2, Outer)] &&
      r[Zone(Leg1, Inner)] == p[Zone(Leg1, Inner)] && r[Zone(Leg2, Inner)] == p[Zone(Leg2, Inner)] &&
      r[Zone(Leg1, End)] == p[Zone(Leg1, End)] && r[Zone(Leg2, End)] == p[Zone(Leg2, End)] &&
      r[Zone(Leg1, Bottom)] == p[Zone(Leg1, Bottom)] && r[Zone(Leg2, Bottom)] == p[Zone(Leg2, Bottom)] &&
      r[Zone(Leg1, Top)] == p[Zone(Leg1, Top)] - (p[Zone(Leg1, Inner)] + p[Zone(Leg1, Outer)] + p[Zone(Leg1, End)]) &&
      r[Zone(Leg2, Top)] == p[Zone(Leg2, Top)] - (p[Zone(Leg2, Inner)] + p[Zone(Leg2, Outer)] + p[Zone(Leg2, End)])
  {
  }

  /** The groups after `corner_wall_to_vert_groups`, starting from groups `g`. */
  function WallGroups(m: Mesh, g: map<Zone, set<nat>>, vertLocs: map<Zone, seq<Vec3>>, h: real, n: int): map<Zone, set<nat>>
    requires n != 0 && HasRecorded(vertLocs)
  {
    PairedGroups(m, RecordedGroups(m, Fresh(g), vertLocs, h, n), vertLocs, h, Tight, true)
  }

  /** The groups after `corner_floor_to_vert_groups`, starting from groups `g`. */
  function FloorGroups(m: Mesh, g: map<Zone, set<nat>>, vertLocs: map<Zone, seq<Vec3>>, h: real, n: int): map<Zone, set<nat>>
    requires n != 0 && HasRecorded(vertLocs)
  {
    Trimmed(Trimmed(PairedGroups(m, RecordedGroups(m, Fresh(g), vertLocs, h, n), vertLocs, h, Loose, false), Leg1), Leg2)
  }

  /** The groups after the five loops shared by both classifiers, run on fresh groups. */
  lemma PairedSpec(m: Mesh, g: map<Zone, set<nat>>, vertLocs: map<Zone, seq<Vec3>>, h: real, n: int, topTol: real, leg2TopFirstOnly: bool)
    requires n != 0 && HasRecorded(vertLocs)
    ensures var r := PairedGroups(m, RecordedGroups(m, Fresh(g), vertLocs, h, n), vertLocs, h, topTol, leg2TopFirstOnly);
      var so, eo := SideOffsets(h, n), EndOffsets(h, n);
      AllZones <= r.Keys &&
      r[Zone(Leg1, Outer)] == LayerUnion(m, vertLocs[Zone(Leg1, Outer)], so) &&
      r[Zone(Leg2, Outer)] == LayerUnion(m, vertLocs[Zone(Leg2, Outer)], so) &&
      r[Zone(Leg1, Inner)] == LayerUnion(m, vertLocs[Zone(Leg1, Inner)], so) &&
      r[Zone(Leg2, Inner)] == LayerUnion(m, vertLocs[Zone(Leg2, Inner)], so) &&
      r[Zone(Leg1, End)] == PathUnion(m, vertLocs[Zone(Leg1, End)], eo) &&
      r[Zone(Leg2, End)] == PathUnion(m, vertLocs[Zone(Leg2, End)], eo) &&
      r[Zone(Leg1, Bottom)] == PairUnion(m, Reverse(vertLocs[Zone(Leg1, Inner)]), vertLocs[Zone(Leg1, Outer)], Tight, true) &&
      r[Zone(Leg2, Bottom)] == PairUnion(m, Reverse(vertLocs[Zone(Leg2, Inner)]), vertLocs[Zone(Leg2, Outer)], Tight, true) &&
      r[Zone(Leg1, Top)] == PairUnion(m, Lift(Reverse(vertLocs[Zone(Leg1, Inner)]), h), Lift(vertLocs[Zone(Leg1, Outer)], h), topTol, true) &&
      r[Zone(Leg2, Top)] == PairUnion(m, Lift(Reverse(vertLocs[Zone(Leg2, Inner)]), h), Lift(vertLocs[Zone(Leg2, Outer)], h), topTol, leg2TopFirstOnly)
  {
    var so, eo := SideOffsets(h, n), EndOffsets(h, n);
    PhasesRecordedSpec(g,
      LayerUnion(m, vertLocs[Zone(Leg1, Outer)], so), LayerUnion(m, vertLocs[Zone(Leg2, Outer)], so),
      LayerUnion(m, vertLocs[Zone(Leg1, Inner)], so), LayerUnion(m, vertLocs[Zone(Leg2, Inner)], so),
      PathUnion(m, vertLocs[Zone(Leg1, End)], eo), PathUnion(m, vertLocs[Zone(Leg2, End)], eo),
      PairZone(m, vertLocs, Leg1, h, false, Tight, true), PairZone(m, vertLocs, Leg2, h, false, Tight, true),
      PairZone(m, vertLocs, Leg1, h, true, topTol, true), PairZone(m, vertLocs, Leg2, h, true, topTol, leg2TopFirstOnly));
    PhasesPairedSpec(g,
      LayerUnion(m, vertLocs[Zone(Leg1, Outer)], so), LayerUnion(m, vertLocs[Zone(Leg2, Outer)], so),
      LayerUnion(m, vertLocs[Zone(Leg1, Inner)], so), LayerUnion(m, vertLocs[Zone(Leg2, Inner)], so),
      PathUnion(m, vertLocs[Zone(Leg1, End)], eo), PathUnion(m, vertLocs[Zone(Leg2, End)], eo),
      PairZone(m, vertLocs, Leg1, h, false, Tight, true), PairZone(m, vertLocs, Leg2, h, false, Tight, true),
      PairZone(m, vertLocs, Leg1, h, true, topTol, true), PairZone(m, vertLocs, Leg2, h, true, topTol, leg2TopFirstOnly));
  }

  /**
   * After the wall classifier each of the ten groups holds exactly its zone:
   * Inner/Outer the layered first matches, End the per-layer paths, Bottom
   * the reversed-inner/outer pairs, Top the same pairs raised by h; whatever
   * the groups held before is gone.
   */
  lemma WallGroupsSpec(m: Mesh, g: map<Zone, set<nat>>, vertLocs: map<Zone, seq<Vec3>>, h: real, n: int)
    requires n != 0 && HasRecorded(vertLocs)
    ensures var r := WallGroups(m, g, vertLocs, h, n);
      var so, eo := SideOffsets(h, n), EndOffsets(h, n);
      AllZones <= r.Keys &&
      r[Zone(Leg1, Outer)] == LayerUnion(m, vertLocs[Zone(Leg1, Outer)], so) &&
      r[Zone(Leg2, Outer)] == LayerUnion(m, vertLocs[Zone(Leg2, Outer)], so) &&
      r[Zone(Leg1, Inner)] == LayerUnion(m, vertLocs[Zone(Leg1, Inner)], so) &&
      r[Zone(Leg2, Inner)] == LayerUnion(m, vertLocs[Zone(Leg2, Inner)], so) &&
      r[Zone(Leg1, End)] == PathUnion(m, vertLocs[Zone(Leg1, End)], eo) &&
      r[Zone(Leg2, End)] == PathUnion(m, vertLocs[Zone(Leg2, End)], eo) &&
      r[Zone(Leg1, Bottom)] == PairUnion(m, Reverse(vertLocs[Zone(Leg1, Inner)]), vertLocs[Zone(Leg1, Outer)], Tight, true) &&
      r[Zone(Leg2, Bottom)] == PairUnion(m, Reverse(vertLocs[Zone(Leg2, Inner)]), vertLocs[Zone(Leg2, Outer)], Tight, true) &&
      r[Zone(Leg1, Top)] == PairUnion(m, Lift(Reverse(vertLocs[Zone(Leg1, Inner)]), h), Lift(vertLocs[Zone(Leg1, Outer)], h), Tight, true) &&
      r[Zone(Leg2, Top)] == PairUnion(m, Lift(Reverse(vertLocs[Zone(Leg2, Inner)]), h), Lift(vertLocs[Zone(Leg2, Outer)], h), Tight, true)
  {
    PairedSpec(m, g, vertLocs, h, n, Tight, true);
  }

  /**
   * After the floor classifier the Inner, Outer, End and Bottom groups hold
   * the same zones as after the wall classifier.
   */
  lemma FloorSidesSpec(m: Mesh, g: map<Zone, set<nat>>, vertLocs: map<Zone, seq<Vec3>>, h: real, n: int)
    requires n != 0 && HasRecorded(vertLocs)
    ensures var r, w := FloorGroups(m, g, vertLocs, h, n), WallGroups(m, g, vertLocs, h, n);
      AllZones <= r.Keys && AllZones <= w.Keys &&
      r[Zone(Leg1, Outer)] == w[Zone(Leg1, Outer)] && r[Zone(Leg2, Outer)] == w[Zone(Leg2, Outer)] &&
      r[Zone(Leg1, Inner)] == w[Zone(Leg1, Inner)] && r[Zone(Leg2, Inner)] == w[Zone(Leg2, Inner)] &&
      r[Zone(Leg1, End)] == w[Zone(Leg1, End)] && r[Zone(Leg2, End)] == w[Zone(Leg2, End)] &&
      r[Zone(Leg1, Bottom)] == w[Zone(Leg1, Bottom)] && r[Zone(Leg2, Bottom)] == w[Zone(Leg2, Bottom)]
  {
    WallGroupsSpec(m, g, vertLocs, h, n);
    PairedSpec(m, g, vertLocs, h, n, Loose, false);
    TrimmedSpec(PairedGroups(m, RecordedGroups(m, Fresh(g), vertLocs, h, n), vertLocs, h, Loose, false));
  }

  /**
   * After the floor classifier a leg's Top group holds the raised pairs
   * searched with the looser tolerance (Leg 2 keeping every close vertex),
   * minus the leg's Inner, Outer and End zones.
   */
  lemma FloorTopSpec(m: Mesh, g: map<Zone, set<nat>>, vertLocs: map<Zone, seq<Vec3>>, h: real, n: int, leg: Leg)
    requires n != 0 && HasRecorded(vertLocs)
    ensures var r := FloorGroups(m, g, vertLocs, h, n);
      AllZones <= r.Keys &&
      r[Zone(leg, Top)] == PairUnion(m, Lift(Reverse(vertLocs[Zone(leg, Inner)]), h), Lift(vertLocs[Zone(leg, Outer)], h), Loose, leg == Leg1)
                           - SideZones(m, vertLocs, leg, h, n)
  {
    PairedSpec(m, g, vertLocs, h, n, Loose, false);
    TrimmedSpec(PairedGroups(m, RecordedGroups(m, Fresh(g), vertLocs, h, n), vertLocs, h, Loose, false));
  }

  /** On a floor tile no Top vertex of a leg is also in that leg's Inner, Outer or End group. */
  lemma FloorTopDisjoint(m: Mesh, g: map<Zone, set<nat>>, vertLocs: map<Zone, seq<Vec3>>, h: real, n: int, leg: Leg)
    requires n != 0 && HasRecorded(vertLocs)
    ensures var r := FloorGroups(m, g, vertLocs, h, n);
      AllZones <= r.Keys &&
      r[Zone(leg, Top)] !! r[Zone(leg, Inner)] + r[Zone(leg, Outer)] + r[Zone(leg, End)]
  {
    FloorSidesSpec(m, g, vertLocs, h, n);
    FloorTopSpec(m, g, vertLocs, h, n, leg);
    WallGroupsSpec(m, g, vertLocs, h, n);
  }

  /** `for index, coord in enumerate(vert_coords): vert_coords[index] = Vector((0, 0, dz)) + coord` */
  method LiftEach(coords: seq<Vec3>, dz: real) returns (r: seq<Vec3>)
    ensures |r| == |coords| && r == Lift(coords, dz)
    ensures forall i :: 0 <= i < |r| ==> r[i] == Vec3(coords[i].x, coords[i].y, coords[i].z + dz)
  {
    r := coords;
    var index := 0;
    while index < |r|
      invariant 0 <= index <= |r| == |coords|
      invariant forall i :: 0 <= i < index ==> r[i] == Up(coords[i], dz)
      invariant forall i :: index <= i < |r| ==> r[i] == coords[i]
    {
      r := r[index := Up(r[index], dz)];
      index := index + 1;
    }
  }

  /**
   * The core object in edit mode: which vertices are selected, its vertex
   * groups (by zone) and the active group.
   */
  class EditMesh {
    const mesh: Mesh
    var selected: set<nat>
    var groups: map<Zone, set<nat>>
    var active: Zone

    constructor (m: Mesh, groups0: map<Zone, set<nat>>)
      ensures mesh == m && selected == {} && groups == groups0
    {
      mesh := m;
      selected := {};
      groups := groups0;
      active := Zone(Leg1, End);
    }

    /** `for v in bm.verts: v.select = False` */
    method DeselectAll()
      modifies this`selected
      ensures selected == {}
    {
      selected := {};
    }

    /** One search over `bm.verts`, with (`firstOnly`) or without `break`. */
    method SelectClose(c: Vec3, tol: real, firstOnly: bool)
      modifies this`selected
      ensures selected == old(selected) + Pick(mesh, c, tol, firstOnly)
    {
      var j := 0;
      if firstOnly {
        while j < |mesh.co|
          invariant 0 <= j <= |mesh.co|
          invariant FirstFrom(mesh, c, tol, j) == FirstFrom(mesh, c, tol, 0)
          invariant selected == old(selected)
        {
          if mesh.close(mesh.co[j], c, tol) {
            selected := selected + {j};
            break;
          }
          j := j + 1;
        }
      } else {
        while j < |mesh.co|
          invariant 0 <= j <= |mesh.co|
          invariant selected == old(selected) + set i: nat | i < j && mesh.close(mesh.co[i], c, tol)
        {
          if mesh.close(mesh.co[j], c, tol) {
            selected := selected + {j};
          }
          j := j + 1;
        }
      }
    }

    /** `for coord in vert_coords:` followed by a search with `break`. */
    method SelectEach(cs: seq<Vec3>)
      modifies this`selected
      ensures selected == old(selected) + FirstMatches(mesh, cs, Tight)
    {
      var k := 0;
      while k < |cs|
        invariant 0 <= k <= |cs|
        invariant selected == old(selected) + FirstMatches(mesh, cs[..k], Tight)
      {
        SelectClose(cs[k], Tight, true);
        assert cs[..k + 1][..k] == cs[..k];
        k := k + 1;
      }
      assert cs[..k] == cs;
    }

    /** `bpy.ops.mesh.shortest_path_select` */
    method SelectPath()
      modifies this`selected
      ensures selected == mesh.path(old(selected))
    {
      selected := mesh.path(selected);
    }

    /** `bpy.ops.object.vertex_group_assign`: the selection joins the active group. */
    method Assign()
      requires active in groups
      modifies this`groups
      ensures groups == old(groups)[active := old(groups)[active] + selected]
    {
      groups := groups[active := groups[active] + selected];
    }

    /** The first two layers of a side: the vertices at the corners, then 0.001 above them. */
    method SelectBottomLayers(coords: seq<Vec3>) returns (vc: seq<Vec3>)
      modifies this`selected
      ensures vc == Lift(coords, 0.001) && selected == LayerUnion(mesh, coords, [0.0, 0.001])
    {
      DeselectAll();
      vc := coords;
      LiftZero(coords);
      assert LayerUnion(mesh, coords, [0.0]) == FirstMatches(mesh, coords, Tight);
      SelectEach(vc);
      vc := LiftEach(vc, 0.001);
      SelectEach(vc);
      assert [0.0, 0.001][..1] == [0.0];
    }

    /** The Inner/Outer procedure for one group (tile_creation/L_Tiles.py, first loop). */
    method TagSide(z: Zone, coords: seq<Vec3>, h: real, n: int)
      requires n != 0 && z in groups
      modifies this`selected, this`groups, this`active
      ensures groups == old(groups)[z := old(groups)[z] + LayerUnion(mesh, coords, SideOffsets(h, n))]
    {
      active := z;
      SelectSideLayers(coords, h, n);
      Assign();
    }

    /** The selection of the Inner/Outer procedure: every layer of the side, from the corners up. */
    method SelectSideLayers(coords: seq<Vec3>, h: real, n: int)
      requires n != 0
      modifies this`selected
      ensures selected == LayerUnion(mesh, coords, SideOffsets(h, n))
    {
      var d := SubdivDist(h, n);
      var vc := SelectBottomLayers(coords);
      ghost var offs: seq<real> := [0.0, 0.001];
      var i := 0;
      while i <= n
        invariant 0 <= i <= UpTo(n)
        invariant offs == Extend([0.0, 0.001], d, i)
        invariant vc == Lift(coords, offs[|offs| - 1])
        invariant selected == LayerUnion(mesh, coords, offs)
      {
        vc := SelectNextLayer(coords, vc, offs, d);
        offs := offs + [offs[|offs| - 1] + d];
        i := i + 1;
      }
    }

    /** One pass of a side's loop: the layer `d` above the last one is added to the selection. */
    method SelectNextLayer(coords: seq<Vec3>, vc: seq<Vec3>, ghost offs: seq<real>, d: real) returns (next: seq<Vec3>)
      requires offs != [] && vc == Lift(coords, offs[|offs| - 1]) && selected == LayerUnion(mesh, coords, offs)
      modifies this`selected
      ensures next == Lift(coords, offs[|offs| - 1] + d)
      ensures selected == LayerUnion(mesh, coords, offs + [offs[|offs| - 1] + d])
    {
      LiftLift(coords, offs[|offs| - 1], d);
      next := LiftEach(vc, d);
      SelectEach(next);
      assert (offs + [offs[|offs| - 1] + d])[..|offs|] == offs;
    }

    /** One End layer: deselect, select the first matches, close the path, assign. */
    method PathLayer(vc: seq<Vec3>)
      requires active in groups
      modifies this`selected, this`groups
      ensures groups == old(groups)[active := old(groups)[active] + mesh.path(FirstMatches(mesh, vc, Tight))]
    {
      DeselectAll();
      SelectEach(vc);
      assert selected == FirstMatches(mesh, vc, Tight);
      SelectPath();
      Assign();
    }

    /** The first two End layers: the recorded coordinates, then raised by 0.001. */
    method EndBase(z: Zone, coords: seq<Vec3>) returns (vc: seq<Vec3>)
      requires z in groups
      modifies this`selected, this`groups, this`active
      ensures active == z && vc == Lift(coords, 0.001)
      ensures groups == old(groups)[z := old(groups)[z] + PathUnion(mesh, coords, [0.0, 0.001])]
    {
      active := z;
      vc := coords;
      LiftZero(coords);
      assert old(groups)[z] + {} == old(groups)[z];
      assert old(groups)[z := old(groups)[z] + PathUnion(mesh, coords, [])] == old(groups);
      AssignAgain(old(groups), z, PathUnion(mesh, coords, []), mesh.path(FirstMatches(mesh, vc, Tight)));
      PathUnionSnoc(mesh, coords, [], 0.0);
      PathLayer(vc);

      LiftLift(coords, 0.0, 0.001);
      vc := LiftEach(vc, 0.001);
      AssignAgain(old(groups), z, PathUnion(mesh, coords, [0.0]), mesh.path(FirstMatches(mesh, vc, Tight)));
      PathUnionSnoc(mesh, coords, [0.0], 0.001);
      PathLayer(vc);
    }

    /** One further End layer, `dz` above the previous one (`vc` raised in place). */
    method EndLayer(ghost g0: map<Zone, set<nat>>, z: Zone, coords: seq<Vec3>, ghost offs: seq<real>, vc: seq<Vec3>, dz: real)
      returns (vc2: seq<Vec3>)
      requires offs != [] && vc == Lift(coords, offs[|offs| - 1])
      requires z in g0 && active == z && groups == g0[z := g0[z] + PathUnion(mesh, coords, offs)]
      modifies this`selected, this`groups
      ensures vc2 == Lift(coords, offs[|offs| - 1] + dz)
      ensures groups == g0[z := g0[z] + PathUnion(mesh, coords, offs + [offs[|offs| - 1] + dz])]
    {
      LiftLift(coords, offs[|offs| - 1], dz);
      vc2 := LiftEach(vc, dz);
      EndLayerStep(g0, z, mesh, coords, offs, offs[|offs| - 1] + dz);
      PathLayer(vc2);
    }

    /** The k-th subdivided End layer, `d` above the one before. */
    method SubdivLayer(ghost g0: map<Zone, set<nat>>, z: Zone, coords: seq<Vec3>, ghost k: nat, vc: seq<Vec3>, d: real)
      returns (vc2: seq<Vec3>)
      requires vc == Lift(coords, SubdivTop(d, k))
      requires z in g0 && active == z && groups == g0[z := g0[z] + PathUnion(mesh, coords, SubdivLayers(d, k))]
      modifies this`selected, this`groups
      ensures vc2 == Lift(coords, SubdivTop(d, k + 1))
      ensures groups == g0[z := g0[z] + PathUnion(mesh, coords, SubdivLayers(d, k + 1))]
    {
      ghost var offs := SubdivLayers(d, k);
      assert SubdivLayers(d, k + 1) == offs + [offs[k + 1] + d];
      vc2 := EndLayer(g0, z, coords, offs, vc, d);
    }

    /** The `for i in range(z_native_subdivisions)` End layers, each `d` above the last. */
    method EndSubdivLayers(ghost g0: map<Zone, set<nat>>, z: Zone, coords: seq<Vec3>, vc: seq<Vec3>, d: real, n: int)
      returns (vc2: seq<Vec3>)
      requires vc == Lift(coords, 0.001)
      requires z in g0 && active == z && groups == g0[z := g0[z] + PathUnion(mesh, coords, [0.0, 0.001])]
      modifies this`selected, this`groups
      ensures vc2 == Lift(coords, SubdivTop(d, Below(n)))
      ensures groups == g0[z := g0[z] + PathUnion(mesh, coords, SubdivLayers(d, Below(n)))]
    {
      vc2 := vc;
      assert SubdivLayers(d, 0) == [0.0, 0.001];
      var i := 0;
      while i < n
        invariant 0 <= i <= Below(n)
        invariant vc2 == Lift(coords, SubdivTop(d, i))
        invariant groups == g0[z := g0[z] + PathUnion(mesh, coords, SubdivLayers(d, i))]
      {
        vc2 := SubdivLayer(g0, z, coords, i, vc2, d);
        i := i + 1;
      }
    }

    /** The End procedure for one group: one path-closed selection per layer. */
    method TagEnd(z: Zone, coords: seq<Vec3>, h: real, n: int)
      requires n != 0 && z in groups
      modifies this`selected, this`groups, this`active
      ensures groups == old(groups)[z := old(groups)[z] + PathUnion(mesh, coords, EndOffsets(h, n))]
    {
      var vc := EndBase(z, coords);
      var d := SubdivDist(h, n);
      vc := EndSubdivLayers(old(groups), z, coords, vc, d, n);
      ghost var offs := SubdivLayers(d, Below(n));
      assert offs[|offs| - 1] == SubdivTop(d, Below(n));
      vc := EndLayer(old(groups), z, coords, offs, vc, 0.001);
    }

    /** The Top/Bottom procedure for one group: pair inner[i] with outer[i]. */
    method TagPair(z: Zone, inner: seq<Vec3>, outer: seq<Vec3>, tol: real, firstOnly: bool)
      requires z in groups
      modifies this`selected, this`groups, this`active
      ensures groups == old(groups)[z := old(groups)[z] + PairUnion(mesh, inner, outer, tol, firstOnly)]
    {
      active := z;
      DeselectAll();
      var i := 0;
      ghost var acc: set<nat> := {};
      assert PairUnion(mesh, inner[..0], outer[..0], tol, firstOnly) == acc;
      assert old(groups)[z] + acc == old(groups)[z];
      assert old(groups)[z := old(groups)[z]] == old(groups);
      while i < |outer| && i < |inner|
        invariant 0 <= i <= Min(|inner|, |outer|)
        invariant active == z && selected == {}
        invariant acc == PairUnion(mesh, inner[..i], outer[..i], tol, firstOnly)
        invariant groups == old(groups)[z := old(groups)[z] + acc]
      {
        SelectClose(inner[i], tol, firstOnly);
        SelectClose(outer[i], tol, firstOnly);
        assert selected == Pick(mesh, inner[i], tol, firstOnly) + Pick(mesh, outer[i], tol, firstOnly);
        SelectPath();
        ghost var step := selected;
        Assign();
        DeselectAll();
        AssignAgain(old(groups), z, acc, step);
        PairUnionSnoc(mesh, inner, outer, tol, firstOnly, i);
        acc := acc + step;
        i := i + 1;
      }
      PairUnionSpec(mesh, inner, outer, tol, firstOnly);
    }

    /** Creates the ten groups, in the order the classifier does. */
    method NewZoneGroups()
      modifies this`groups
      ensures groups == Fresh(old(groups))
    {
      groups := groups[Zone(Leg1, End) := {}][Zone(Leg2, End) := {}];
      groups := groups[Zone(Leg1, Inner) := {}][Zone(Leg2, Inner) := {}];
      groups := groups[Zone(Leg1, Outer) := {}][Zone(Leg2, Outer) := {}];
      groups := groups[Zone(Leg1, Top) := {}][Zone(Leg2, Top) := {}];
      groups := groups[Zone(Leg1, Bottom) := {}][Zone(Leg2, Bottom) := {}];
    }

    /** Inner, Outer and End zones, shared by the wall and floor classifiers. */
    method TagRecorded(vertLocs: map<Zone, seq<Vec3>>, h: real, n: int)
      requires n != 0 && HasRecorded(vertLocs) && AllZones <= groups.Keys
      modifies this`selected, this`groups, this`active
      ensures groups == RecordedGroups(mesh, old(groups), vertLocs, h, n)
    {
      TagSide(Zone(Leg1, Outer), vertLocs[Zone(Leg1, Outer)], h, n);
      TagSide(Zone(Leg2, Outer), vertLocs[Zone(Leg2, Outer)], h, n);
      TagSide(Zone(Leg1, Inner), vertLocs[Zone(Leg1, Inner)], h, n);
      TagSide(Zone(Leg2, Inner), vertLocs[Zone(Leg2, Inner)], h, n);
      TagEnd(Zone(Leg1, End), vertLocs[Zone(Leg1, End)], h, n);
      TagEnd(Zone(Leg2, End), vertLocs[Zone(Leg2, End)], h, n);
    }

    /** Bottom then Top zones of both legs, with the Top searches' tolerance and `break` as given. */
    method TagPaired(vertLocs: map<Zone, seq<Vec3>>, h: real, topTol: real, leg2TopFirstOnly: bool)
      requires HasRecorded(vertLocs) && AllZones <= groups.Keys
      modifies this`selected, this`groups, this`active
      ensures groups == PairedGroups(mesh, old(groups), vertLocs, h, topTol, leg2TopFirstOnly)
    {
      var inner1, outer1 := Reverse(vertLocs[Zone(Leg1, Inner)]), vertLocs[Zone(Leg1, Outer)];
      var inner2, outer2 := Reverse(vertLocs[Zone(Leg2, Inner)]), vertLocs[Zone(Leg2, Outer)];
      TagPair(Zone(Leg1, Bottom), inner1, outer1, Tight, true);
      TagPair(Zone(Leg2, Bottom), inner2, outer2, Tight, true);
      var top1 := LiftEach(inner1, h);
      var top1o := LiftEach(outer1, h);
      TagPair(Zone(Leg1, Top), top1, top1o, topTol, true);
      var top2 := LiftEach(inner2, h);
      var top2o := LiftEach(outer2, h);
      TagPair(Zone(Leg2, Top), top2, top2o, topTol, leg2TopFirstOnly);
    }

    /**
     * `corner_wall_to_vert_groups`: creates the ten groups and fills each one
     * with its zone; groups of other names are left alone.
     */
    method CornerWallToVertGroups(vertLocs: map<Zone, seq<Vec3>>, h: real, n: int)
      requires n != 0 && HasRecorded(vertLocs)
      modifies this`selected, this`groups, this`active
      ensures groups == WallGroups(mesh, old(groups), vertLocs, h, n)
    {
      DeselectAll();
      NewZoneGroups();
      TagRecorded(vertLocs, h, n);
      TagPaired(vertLocs, h, Tight, true);
    }

    /**
     * `corner_floor_to_vert_groups`: as for walls, with the floor's Top
     * searches, then each leg's Top group loses the vertices of that leg's
     * Inner, Outer and End groups.
     */
    method CornerFloorToVertGroups(vertLocs: map<Zone, seq<Vec3>>, h: real, n: int)
      requires n != 0 && HasRecorded(vertLocs)
      modifies this`selected, this`groups, this`active
      ensures groups == FloorGroups(mesh, old(groups), vertLocs, h, n)
    {
      DeselectAll();
      NewZoneGroups();
      TagRecorded(vertLocs, h, n);
      TagPaired(vertLocs, h, Loose, false);
      RemoveSideVerts(Leg1);
      RemoveSideVerts(Leg2);
    }

    /** Collects one leg's Inner, Outer and End vertices and removes them from its Top group. */
    method RemoveSideVerts(leg: Leg)
      requires AllZones <= groups.Keys
      modifies this`groups
      ensures groups == Trimmed(old(groups), leg)
    {
      var sides := [Zone(leg, Inner), Zone(leg, Outer), Zone(leg, End)];
      var indices: set<nat> := {};
      var k := 0;
      while k < |sides|
        invariant 0 <= k <= |sides|
        invariant forall v :: v in indices <==> exists j :: 0 <= j < k && v in Get(groups, sides[j])
      {
        indices := indices + Get(groups, sides[k]);
        k := k + 1;
      }
      assert indices == Get(groups, sides[0]) + Get(groups, sides[1]) + Get(groups, sides[2]);
      groups := groups[Zone(leg, Top) := Get(groups, Zone(leg, Top)) - indices];
    }
  }
}
