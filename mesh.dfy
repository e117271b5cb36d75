/**
 * The mesh cutter: a tetrahedral mesh held as a vertex matrix and a
 * tetrahedron matrix, the five subdivision templates that rewrite one
 * tetrahedron of it in place, the dispatch on the edge mask, and the cut of
 * one tetrahedron by a triangle.
 */
module Cutter {
  import opened Wrappers
  import opened Geometry
  import opened Tetrahedron
  import opened Intersections
  import opened Templates
  import opened Cases

  /** The points of pts at the listed slots, in the listed order. */
  function Picked(pts: seq<Point>, slots: seq<nat>): (r: seq<Point>)
    requires AllBelow(slots, |pts|)
    ensures |r| == |slots| && forall j :: 0 <= j < |slots| ==> slots[j] < |pts| && r[j] == pts[slots[j]]
  {
    SmallListFacts(slots, |pts|);
    seq(|slots|, j requires 0 <= j < |slots| => pts[slots[j]])
  }

  /**
   * An entry that covers mask m hands its template the point of every hit
   * edge and of every pierced face, each from exactly one slot, and no
   * other point.
   */
  lemma PickedCovers(e: CaseEntry, m: bv8, pe: seq<Point>, pf: seq<Point>)
    requires Shaped(e) && CoversMask(e, m) && |pe| == 6 && |pf| == 4
    ensures var r := Picked(pe, e.edgeSlots);
      (forall i :: 0 <= i < 6 ==> (Bit(m, i) <==> exists j :: 0 <= j < |r| && e.edgeSlots[j] == i && r[j] == pe[i]))
      && (forall j :: 0 <= j < |r| ==> e.edgeSlots[j] < 6 && Bit(m, e.edgeSlots[j]) && r[j] == pe[e.edgeSlots[j]])
      && (forall j, k :: 0 <= j < |r| && 0 <= k < |r| && e.edgeSlots[j] == e.edgeSlots[k] ==> j == k)
    ensures var r := Picked(pf, e.faceSlots);
      (forall f :: 0 <= f < 4 ==> (Pierced(m, f) <==> exists j :: 0 <= j < |r| && e.faceSlots[j] == f && r[j] == pf[f]))
      && (forall j :: 0 <= j < |r| ==> e.faceSlots[j] < 4 && Pierced(m, e.faceSlots[j]) && r[j] == pf[e.faceSlots[j]])
      && (forall j, k :: 0 <= j < |r| && 0 <= k < |r| && e.faceSlots[j] == e.faceSlots[k] ==> j == k)
  {
    SmallListFacts(e.edgeSlots, 6);
    SmallListFacts(e.faceSlots, 4);
    var re, rf := Picked(pe, e.edgeSlots), Picked(pf, e.faceSlots);
    forall i | 0 <= i < 6 && Bit(m, i) ensures exists j :: 0 <= j < |re| && e.edgeSlots[j] == i && re[j] == pe[i] {
      assert i in e.edgeSlots;
      var j :| 0 <= j < |e.edgeSlots| && e.edgeSlots[j] == i;
      assert re[j] == pe[i];
    }
    forall j | 0 <= j < |re| ensures Bit(m, e.edgeSlots[j]) {
      assert e.edgeSlots[j] in e.edgeSlots;
    }
    forall f | 0 <= f < 4 && Pierced(m, f) ensures exists j :: 0 <= j < |rf| && e.faceSlots[j] == f && rf[j] == pf[f] {
      assert f in e.faceSlots;
      var j :| 0 <= j < |e.faceSlots| && e.faceSlots[j] == f;
      assert rf[j] == pf[f];
    }
    forall j | 0 <= j < |rf| ensures Pierced(m, e.faceSlots[j]) {
      assert e.faceSlots[j] in e.faceSlots;
    }
  }

  /** The rows template 1 writes, spelled out. */
  lemma EmittedCase1(c: Tet, b: int)
    ensures Emitted(1, c, b) == [
      [c[0], c[1], c[2], b + 2],
      [c[0], b, c[1], b + 2],
      [b + 1, b, b + 2, c[1]],
      [b, b + 1, b + 2, c[3]]]
  {
  }

  lemma Case1Rows(tets: seq<Tet>, t: nat, order: seq<nat>, b: int)
    requires t < |tets| && IsOrdering(order)
    ensures var v := Reordered(tets[t], order);
      Subdivided(tets, t, Emitted(1, v, b)) == tets[t := [v[0], v[1], v[2], b + 2]] + [
        [v[0], b, v[1], b + 2],
        [b + 1, b, b + 2, v[1]],
        [b, b + 1, b + 2, v[3]]]
  {
    var v := Reordered(tets[t], order);
    EmittedCase1(v, b);
  }

  /** The rows template 2 writes, spelled out. */
  lemma EmittedCase2(c: Tet, b: int)
    ensures Emitted(2, c, b) == [
      [b, b + 2, b + 1, c[3]],
      [b + 1, b + 2, b + 3, c[3]],
      [b + 1, b + 3, c[2], c[3]],
      [b, b + 1, b + 2, c[0]],
      [c[0], c[1], b + 1, b + 2],
      [c[1], b + 3, b + 1, b + 2]]
  {
  }

  lemma Case2Rows(tets: seq<Tet>, t: nat, order: seq<nat>, b: int)
    requires t < |tets| && IsOrdering(order)
    ensures var v := Reordered(tets[t], order);
      Subdivided(tets, t, Emitted(2, v, b)) == tets[t := [b, b + 2, b + 1, v[3]]] + [
        [b + 1, b + 2, b + 3, v[3]],
        [b + 1, b + 3, v[2], v[3]],
        [b, b + 1, b + 2, v[0]],
        [v[0], v[1], b + 1, b + 2],
        [v[1], b + 3, b + 1, b + 2]]
  {
    var v := Reordered(tets[t], order);
    EmittedCase2(v, b);
  }

  /** The rows template 3 writes, spelled out. */
  lemma EmittedCase3(c: Tet, b: int)
    ensures Emitted(3, c, b) == [
      [b, b + 1, b + 2, c[3]],
      [b, b + 2, b + 1, c[0]],
      [b + 1, c[2], b + 2, c[3]],
      [c[1], c[2], b + 1, c[3]],
      [c[0], b + 2, b + 1, c[2]],
      [c[0], c[1], c[2], b + 1]]
  {
  }

  lemma Case3Rows(tets: seq<Tet>, t: nat, order: seq<nat>, b: int)
    requires t < |tets| && IsOrdering(order)
    ensures var v := Reordered(tets[t], order);
      Subdivided(tets, t, Emitted(3, v, b)) == tets[t := [b, b + 1, b + 2, v[3]]] + [
        [b, b + 2, b + 1, v[0]],
        [b + 1, v[2], b + 2, v[3]],
        [v[1], v[2], b + 1, v[3]],
        [v[0], b + 2, b + 1, v[2]],
        [v[0], v[1], v[2], b + 1]]
  {
    var v := Reordered(tets[t], order);
    EmittedCase3(v, b);
  }

  /** The rows template 4 writes, spelled out. */
  lemma EmittedCase4(c: Tet, b: int)
    ensures Emitted(4, c, b) == [
      [b, b + 1, b + 2, c[3]],
      [b, b + 2, b + 3, c[3]],
      [c[3], b + 2, b + 3, c[2]],
      [b + 2, b + 1, b, c[1]],
      [b + 3, b + 2, b, c[1]],
      [b + 3, b + 2, c[1], c[2]],
      [b, b + 3, c[1], c[0]],
      [c[0], c[1], c[2], b + 3]]
  {
  }

  lemma Case4Rows(tets: seq<Tet>, t: nat, order: seq<nat>, b: int)
    requires t < |tets| && IsOrdering(order)
    ensures var v := Reordered(tets[t], order);
      Subdivided(tets, t, Emitted(4, v, b)) == tets[t := [b, b + 1, b + 2, v[3]]] + [
        [b, b + 2, b + 3, v[3]],
        [v[3], b + 2, b + 3, v[2]],
        [b + 2, b + 1, b, v[1]],
        [b + 3, b + 2, b, v[1]],
        [b + 3, b + 2, v[1], v[2]],
        [b, b + 3, v[1], v[0]],
        [v[0], v[1], v[2], b + 3]]
  {
    var v := Reordered(tets[t], order);
    EmittedCase4(v, b);
  }

  /** The rows template 5 writes, spelled out. */
  lemma EmittedCase5(c: Tet, b: int)
    ensures Emitted(5, c, b) == [
      [b + 4, b + 1, b, c[0]],
      [b + 4, b + 3, b + 1, c[0]],
      [c[0], b + 3, c[2], b + 4],
      [b + 3, b + 2, b + 1, c[0]],
      [c[1], b + 1, b + 2, c[0]],
      [b, b + 1, b + 4, c[3]],
      [b + 4, b + 1, c[2], c[3]],
      [b + 4, b + 3, c[2], b + 1],
      [b + 3, b + 2, c[2], b + 1]]
  {
  }

  lemma Case5Rows(tets: seq<Tet>, t: nat, order: seq<nat>, b: int)
    requires t < |tets| && IsOrdering(order)
    ensures var v := Reordered(tets[t], order);
      Subdivided(tets, t, Emitted(5, v, b)) == tets[t := [b + 4, b + 1, b, v[0]]] + [
        [b + 4, b + 3, b + 1, v[0]],
        [v[0], b + 3, v[2], b + 4],
        [b + 3, b + 2, b + 1, v[0]],
        [v[1], b + 1, b + 2, v[0]],
        [b, b + 1, b + 4, v[3]],
        [b + 4, b + 1, v[2], v[3]],
        [b + 4, b + 3, v[2], b + 1],
        [b + 3, b + 2, v[2], b + 1]]
  {
    var v := Reordered(tets[t], order);
    EmittedCase5(v, b);
  }

  /** The positions of the four corners of a tetrahedron row. */
  function Corners(verts: seq<Point>, row: Tet): (pos: seq<Point>)
    requires forall j :: 0 <= j < 4 ==> 0 <= row[j] < |verts|
    ensures |pos| == 4 && forall j :: 0 <= j < 4 ==> pos[j] == verts[row[j]]
  {
    [verts[row[0]], verts[row[1]], verts[row[2]], verts[row[3]]]
  }

  /**
   * The two segments span a triangle: they start at the same point and, as
   * far as the normalisation can tell, leave it in different directions.
   */
  predicate Spanning(startLine: Segment, endLine: Segment, normalized: Point -> Point)
  {
    startLine.first == endLine.first
    && normalized(Sub(startLine.second, startLine.first)) != normalized(Sub(endLine.second, endLine.first))
  }

  /**
   * The mesh (verts1, tets1) is what dispatching to `entry` on tetrahedron t
   * of the mesh (verts0, tets0) gives: unchanged when there is no entry,
   * otherwise the entry's points appended and its template's rows written.
   */
  ghost predicate Dispatched(entry: Option<CaseEntry>, t: nat, pe: seq<Point>, pf: seq<Point>,
                             verts0: seq<Point>, tets0: seq<Tet>, verts1: seq<Point>, tets1: seq<Tet>)
    requires entry.Some? ==> Shaped(entry.value)
    requires t < |tets0| && |pe| == 6 && |pf| == 4
  {
    match entry
    case None => verts1 == verts0 && tets1 == tets0
    case Some(e) =>
      verts1 == verts0 + Picked(pe, e.edgeSlots) + Picked(pf, e.faceSlots)
      && tets1 == Subdivided(tets0, t, Emitted(e.template, Reordered(tets0[t], e.order), |verts0|))
  }

  /**
   * Applying an entry keeps a mesh well formed: if every tetrahedron names
   * four distinct existing vertices before, the same holds afterwards.
   */
  lemma EntryKeepsWellFormed(e: CaseEntry, t: nat, pe: seq<Point>, pf: seq<Point>, verts: seq<Point>, tets: seq<Tet>)
    requires Shaped(e) && t < |tets| && |pe| == 6 && |pf| == 4
    ensures var verts' := verts + Picked(pe, e.edgeSlots) + Picked(pf, e.faceSlots);
      var tets' := Subdivided(tets, t, Emitted(e.template, Reordered(tets[t], e.order), |verts|));
      IndicesBelow(tets, |verts|) && RowsDistinct(tets) ==> IndicesBelow(tets', |verts'|) && RowsDistinct(tets')
  {
    if IndicesBelow(tets, |verts|) && RowsDistinct(tets) {
      SubdividedWellFormed(e.template, tets, |verts|, t, e.order);
    }
  }

  /**
   * A tetrahedral mesh: `verts` are the rows of the vertex matrix and `tets`
   * the rows of the tetrahedron matrix, four vertex indices each.
   */
  class TetMesh {
    var verts: seq<Point>
    var tets: seq<Tet>

    /** Every tetrahedron names four distinct rows of the vertex matrix. */
    ghost predicate Valid()
      reads this
    {
      IndicesBelow(tets, |verts|) && RowsDistinct(tets)
    }

    constructor (vs: seq<Point>, ts: seq<Tet>)
      ensures verts == vs && tets == ts
      ensures IndicesBelow(ts, |vs|) && RowsDistinct(ts) ==> Valid()
    {
      verts := vs;
      tets := ts;
    }

    /**
     * Template 1: appends 3 edge points as new vertices v5.., overwrites
     * tetrahedron t with the first of its 4 rows and appends the others.
     */
    method SubdivideCase1(t: nat, order: seq<nat>, pe: seq<Point>)
      requires t < |tets| && IsOrdering(order) && |pe| == 3
      modifies this
      ensures verts == old(verts) + pe
      ensures tets == Subdivided(old(tets), t, Emitted(1, Reordered(old(tets)[t], order), |old(verts)|))
    {
      var v1, v2, v3, v4 := tets[t][order[0]], tets[t][order[1]], tets[t][order[2]], tets[t][order[3]];
      var v5 := |verts|;
      var v6, v7 := v5 + 1, v5 + 2;
      verts := verts + [pe[0], pe[1], pe[2]];
      Case1Rows(tets, t, order, v5);
      tets := tets[t := [v1, v2, v3, v7]] + [
        [v1, v5, v2, v7],
        [v6, v5, v7, v2],
        [v5, v6, v7, v4]];
    }

    /**
     * Template 2: appends 4 edge points as new vertices v5.., overwrites
     * tetrahedron t with the first of its 6 rows and appends the others.
     */
    method SubdivideCase2(t: nat, order: seq<nat>, pe: seq<Point>)
      requires t < |tets| && IsOrdering(order) && |pe| == 4
      modifies this
      ensures verts == old(verts) + pe
      ensures tets == Subdivided(old(tets), t, Emitted(2, Reordered(old(tets)[t], order), |old(verts)|))
    {
      var v1, v2, v3, v4 := tets[t][order[0]], tets[t][order[1]], tets[t][order[2]], tets[t][order[3]];
      var v5 := |verts|;
      var v6, v7, v8 := v5 + 1, v5 + 2, v5 + 3;
      verts := verts + [pe[0], pe[1], pe[2], pe[3]];
      Case2Rows(tets, t, order, v5);
      tets := tets[t := [v5, v7, v6, v4]] + [
        [v6, v7, v8, v4],
        [v6, v8, v3, v4],
        [v5, v6, v7, v1],
        [v1, v2, v6, v7],
        [v2, v8, v6, v7]];
    }

    /**
     * Template 3: appends 1 edge point and 2 face points as new vertices v5.., overwrites
     * tetrahedron t with the first of its 6 rows and appends the others.
     */
    method SubdivideCase3(t: nat, order: seq<nat>, pe: seq<Point>, pf: seq<Point>)
      requires t < |tets| && IsOrdering(order) && |pe| == 1 && |pf| == 2
      modifies this
      ensures verts == old(verts) + pe + pf
      ensures tets == Subdivided(old(tets), t, Emitted(3, Reordered(old(tets)[t], order), |old(verts)|))
    {
      var v1, v2, v3, v4 := tets[t][order[0]], tets[t][order[1]], tets[t][order[2]], tets[t][order[3]];
      var v5 := |verts|;
      var v6, v7 := v5 + 1, v5 + 2;
      verts := verts + [pe[0], pf[0], pf[1]];
      Case3Rows(tets, t, order, v5);
      tets := tets[t := [v5, v6, v7, v4]] + [
        [v5, v7, v6, v1],
        [v6, v3, v7, v4],
        [v2, v3, v6, v4],
        [v1, v7, v6, v3],
        [v1, v2, v3, v6]];
    }

    /**
     * Template 4: appends 2 edge points and 2 face points as new vertices v5.., overwrites
     * tetrahedron t with the first of its 8 rows and appends the others.
     */
    method SubdivideCase4(t: nat, order: seq<nat>, pe: seq<Point>, pf: seq<Point>)
      requires t < |tets| && IsOrdering(order) && |pe| == 2 && |pf| == 2
      modifies this
      ensures verts == old(verts) + pe + pf
      ensures tets == Subdivided(old(tets), t, Emitted(4, Reordered(old(tets)[t], order), |old(verts)|))
    {
      var v1, v2, v3, v4 := tets[t][order[0]], tets[t][order[1]], tets[t][order[2]], tets[t][order[3]];
      var v5 := |verts|;
      var v6, v7, v8 := v5 + 1, v5 + 2, v5 + 3;
      verts := verts + [pe[0], pe[1], pf[0], pf[1]];
      Case4Rows(tets, t, order, v5);
      tets := tets[t := [v5, v6, v7, v4]] + [
        [v5, v7, v8, v4],
        [v4, v7, v8, v3],
        [v7, v6, v5, v2],
        [v8, v7, v5, v2],
        [v8, v7, v2, v3],
        [v5, v8, v2, v1],
        [v1, v2, v3, v8]];
    }

    /**
     * Template 5: appends 3 edge points and 2 face points as new vertices v5.., overwrites
     * tetrahedron t with the first of its 9 rows and appends the others.
     */
    method SubdivideCase5(t: nat, order: seq<nat>, pe: seq<Point>, pf: seq<Point>)
      requires t < |tets| && IsOrdering(order) && |pe| == 3 && |pf| == 2
      modifies this
      ensures verts == old(verts) + pe + pf
      ensures tets == Subdivided(old(tets), t, Emitted(5, Reordered(old(tets)[t], order), |old(verts)|))
    {
      var v1, v2, v3, v4 := tets[t][order[0]], tets[t][order[1]], tets[t][order[2]], tets[t][order[3]];
      var v5 := |verts|;
      var v6, v7, v8, v9 := v5 + 1, v5 + 2, v5 + 3, v5 + 4;
      verts := verts + [pe[0], pe[1], pe[2], pf[0], pf[1]];
      Case5Rows(tets, t, order, v5);
      tets := tets[t := [v9, v6, v5, v1]] + [
        [v9, v8, v6, v1],
        [v1, v8, v3, v9],
        [v8, v7, v6, v1],
        [v2, v6, v7, v1],
        [v5, v6, v9, v4],
        [v9, v6, v3, v4],
        [v9, v8, v3, v6],
        [v8, v7, v3, v6]];
    }
  
    /**
     * Runs the template of entry e on tetrahedron t, handing it the entry's
     * edge points and then its face points, each in the entry's slot order.
     */
    method SubdivideWith(e: CaseEntry, t: nat, pe: seq<Point>, pf: seq<Point>)
      requires Shaped(e) && t < |tets| && |pe| == 6 && |pf| == 4
      modifies this
      ensures verts == old(verts) + Picked(pe, e.edgeSlots) + Picked(pf, e.faceSlots)
      ensures tets == Subdivided(old(tets), t, Emitted(e.template, Reordered(old(tets)[t], e.order), |old(verts)|))
      ensures old(Valid()) ==> Valid()
    {
      SmallListFacts(e.edgeSlots, 6);
      SmallListFacts(e.faceSlots, 4);
      var epts, fpts := Picked(pe, e.edgeSlots), Picked(pf, e.faceSlots);
      if e.template == 1 {
        assert fpts == [];
        SubdivideCase1(t, e.order, epts);
      } else if e.template == 2 {
        assert fpts == [];
        SubdivideCase2(t, e.order, epts);
      } else if e.template == 3 {
        SubdivideCase3(t, e.order, epts, fpts);
      } else if e.template == 4 {
        SubdivideCase4(t, e.order, epts, fpts);
      } else {
        SubdivideCase5(t, e.order, epts, fpts);
      }
      EntryKeepsWellFormed(e, t, pe, pf, old(verts), old(tets));
    }

    /**
     * Dispatches on the edge mask through `table`: an accepted mask
     * subdivides tetrahedron t with its entry's template; any other mask
     * leaves the mesh as it was.  `AsWritten` is the dispatch of the source,
     * `Corrected` the one with every edge point in its expected slot.
     */
    method Subdivide(table: Table, mask: bv8, t: nat, pe: seq<Point>, pf: seq<Point>) returns (ok: bool)
      requires t < |tets| && |pe| == 6 && |pf| == 4
      modifies this
      ensures ok <==> Accepted(mask)
      ensures Dispatched(Lookup(table, mask), t, pe, pf, old(verts), old(tets), verts, tets)
      ensures old(Valid()) ==> Valid()
    {
      var entry := Lookup(table, mask);
      if entry.None? {
        return false;
      }
      SubdivideWith(entry.value, t, pe, pf);
      return true;
    }

    /**
     * Cuts tetrahedron t by the triangle spanned by two segments from a
     * common start point.  Segments that do not share their start, or that
     * point in the same direction, are refused; otherwise the edge mask of
     * the triangle against t's edges selects the subdivision in `table`,
     * fed with the edge points and with the face points of the two segments.
     */
    method CutTetrahedron(table: Table, t: nat, startLine: Segment, endLine: Segment,
                          hit: Oracle, normalized: Point -> Point, unset: Point) returns (ok: bool)
      requires t < |tets| && forall j :: 0 <= j < 4 ==> 0 <= tets[t][j] < |verts|
      modifies this
      ensures var pos := Corners(old(verts), old(tets)[t]);
        var edges := EdgeIntersections(pos[0], pos[1], pos[2], pos[3],
                                       startLine.first, startLine.second, endLine.second, hit, unset);
        var faces := FaceIntersections(pos[0], pos[1], pos[2], pos[3], startLine, endLine, hit, unset);
        && (ok <==> Spanning(startLine, endLine, normalized) && Accepted(edges.mask))
        && (!Spanning(startLine, endLine, normalized) ==> verts == old(verts) && tets == old(tets))
        && (Spanning(startLine, endLine, normalized) ==>
              Dispatched(Lookup(table, edges.mask), t, edges.points, faces.points, old(verts), old(tets), verts, tets))
      ensures old(Valid()) ==> Valid()
    {
      if startLine.first != endLine.first {
        return false;
      }
      if normalized(Sub(startLine.second, startLine.first)) == normalized(Sub(endLine.second, endLine.first)) {
        return false;
      }
      var a, b, c := startLine.first, startLine.second, endLine.second;
      var pos := Corners(verts, tets[t]);
      var edges := EdgeIntersections(pos[0], pos[1], pos[2], pos[3], a, b, c, hit, unset);
      var faces := FaceIntersections(pos[0], pos[1], pos[2], pos[3], startLine, endLine, hit, unset);
      ok := Subdivide(table, edges.mask, t, edges.points, faces.points);
    }
  }
}
