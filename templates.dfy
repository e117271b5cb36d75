/**
 * The five subdivision templates as connectivity recipes.  A recipe lists
 * tetrahedra over local labels: 0..3 are the reordered corners v1..v4 and
 * 4, 5, ... are the new vertices v5, v6, ... in the order they are appended
 * (edge points first, then face points).  The first tetrahedron of a recipe
 * overwrites the cut row, the others are appended.
 */
module Templates {
  import opened Tetrahedron

  /** A row of the tetrahedron matrix: four vertex indices. */
  type Tet = r: seq<int> | |r| == 4 witness [0, 0, 0, 0]

  predicate Distinct<T(==)>(s: seq<T>)
  {
    forall a, b :: 0 <= a < b < |s| ==> s[a] != s[b]
  }

  /** Every entry of a list of at most four is below n. */
  predicate AllBelow(s: seq<nat>, n: nat)
  {
    |s| <= 4
    && (|s| > 0 ==> s[0] < n) && (|s| > 1 ==> s[1] < n) && (|s| > 2 ==> s[2] < n) && (|s| > 3 ==> s[3] < n)
  }

  /** The entries of a list of at most four are pairwise distinct. */
  predicate DistinctSmall(s: seq<nat>)
  {
    |s| <= 4
    && (|s| > 1 ==> s[0] != s[1])
    && (|s| > 2 ==> s[0] != s[2] && s[1] != s[2])
    && (|s| > 3 ==> s[0] != s[3] && s[1] != s[3] && s[2] != s[3])
  }

  lemma SmallListFacts(s: seq<nat>, n: nat)
    requires |s| <= 4
    ensures AllBelow(s, n) <==> forall j :: 0 <= j < |s| ==> s[j] < n
    ensures DistinctSmall(s) <==> Distinct(s)
  {
    if AllBelow(s, n) {
      forall j | 0 <= j < |s| ensures s[j] < n {
        assert j == 0 || j == 1 || j == 2 || j == 3;
      }
    }
    if DistinctSmall(s) {
      forall a, b | 0 <= a < b < |s| ensures s[a] != s[b] {
        assert a == 0 || a == 1 || a == 2;
      }
    }
  }

  /** A vertex ordering: four corner slots, each naming a column 0..3 of the row. */
  predicate IsOrdering(order: seq<nat>)
  {
    |order| == 4 && AllBelow(order, 4)
  }

  /** An ordering that is a permutation of 0..3. */
  predicate IsPermutation(order: seq<nat>)
  {
    IsOrdering(order) && DistinctSmall(order)
  }

  /** A permutation of 0..3 hits every corner, and only once. */
  lemma PermutationOnto(order: seq<nat>, d: nat)
    requires IsPermutation(order) && d < 4
    ensures exists c :: 0 <= c < 4 && order[c] == d
    ensures forall a, b :: 0 <= a < 4 && 0 <= b < 4 && order[a] == order[b] ==> a == b
  {
    if order[0] != d && order[1] != d && order[2] != d {
      assert order[3] == d;
    }
    forall a, b | 0 <= a < 4 && 0 <= b < 4 && order[a] == order[b] ensures a == b {
      assert a == 0 || a == 1 || a == 2 || a == 3;
      assert b == 0 || b == 1 || b == 2 || b == 3;
    }
  }

  predicate IsTemplate(k: nat)
  {
    1 <= k <= 5
  }

  /** Edge and face points each template consumes. */
  function EdgePointCount(k: nat): nat
    requires IsTemplate(k)
  {
    match k
    case 1 => 3
    case 2 => 4
    case 3 => 1
    case 4 => 2
    case 5 => 3
  }

  function FacePointCount(k: nat): nat
    requires IsTemplate(k)
  {
    if k <= 2 then 0 else 2
  }

  function NewVertexCount(k: nat): nat
    requires IsTemplate(k)
  {
    EdgePointCount(k) + FacePointCount(k)
  }

  /** Tetrahedra emitted by each template, the overwritten row included. */
  function TetCount(k: nat): nat
    requires IsTemplate(k)
  {
    match k
    case 1 => 4
    case 2 => 6
    case 3 => 6
    case 4 => 8
    case 5 => 9
  }

  /** A recipe row: four distinct labels, each below n. */
  predicate RecipeRow(row: seq<nat>, n: nat)
  {
    |row| == 4 && AllBelow(row, n) && DistinctSmall(row)
  }

  /** The tetrahedra each template writes, over local labels (v1 = 0, ..., v9 = 8). */
  function Recipe(k: nat): (r: seq<seq<nat>>)
    requires IsTemplate(k)
    ensures |r| == TetCount(k)
    ensures forall i :: 0 <= i < |r| ==> RecipeRow(r[i], 4 + NewVertexCount(k))
  {
    match k
    case 1 => [[0, 1, 2, 6], [0, 4, 1, 6], [5, 4, 6, 1], [4, 5, 6, 3]]
    case 2 => [[4, 6, 5, 3], [5, 6, 7, 3], [5, 7, 2, 3], [4, 5, 6, 0], [0, 1, 5, 6], [1, 7, 5, 6]]
    case 3 => [[4, 5, 6, 3], [4, 6, 5, 0], [5, 2, 6, 3], [1, 2, 5, 3], [0, 6, 5, 2], [0, 1, 2, 5]]
    case 4 => [[4, 5, 6, 3], [4, 6, 7, 3], [3, 6, 7, 2], [6, 5, 4, 1], [7, 6, 4, 1], [7, 6, 1, 2],
               [4, 7, 1, 0], [0, 1, 2, 7]]
    case 5 => [[8, 5, 4, 0], [8, 7, 5, 0], [0, 7, 2, 8], [7, 6, 5, 0], [1, 5, 6, 0], [4, 5, 8, 3],
               [8, 5, 2, 3], [8, 7, 2, 5], [7, 6, 2, 5]]
  }

  /**
   * The edge each edge point of template k is placed on, and the face each
   * face point is placed on, over the template's own corners v1..v4.  This
   * is the placement the dispatch entries not listed in `Cases.Misordered`
   * use once their ordering is applied; under it no row of the recipe is
   * flat (`TemplateNoneFlat`).  Flatness alone does not single it out:
   * other placements also give no flat row.
   */
  function TemplateEdges(k: nat): (r: seq<nat>)
    requires IsTemplate(k)
    ensures |r| == EdgePointCount(k) && forall j :: 0 <= j < |r| ==> r[j] < 6
  {
    match k
    case 1 => [3, 4, 5]
    case 2 => [3, 2, 4, 1]
    case 3 => [3]
    case 4 => [3, 4]
    case 5 => [3, 4, 1]
  }

  function TemplateFaces(k: nat): (r: seq<nat>)
    requires IsTemplate(k)
    ensures |r| == FacePointCount(k) && forall j :: 0 <= j < |r| ==> r[j] < 4
  {
    match k
    case 1 => []
    case 2 => []
    case 3 => [0, 2]
    case 4 => [1, 2]
    case 5 => [3, 2]
  }

  /**
   * Where the points of a template's labels lie on the tetrahedron being
   * cut: labels 0..3 are the columns listed in `corners`, then one label per
   * edge point, on the edge listed in `edges`, and one per face point, on
   * the face listed in `faces`.
   */
  datatype Placement = Placement(corners: seq<nat>, edges: seq<nat>, faces: seq<nat>)

  predicate WellPlaced(p: Placement)
  {
    |p.corners| == 4
    && (forall j :: 0 <= j < 4 ==> p.corners[j] < 4)
    && (forall j :: 0 <= j < |p.edges| ==> p.edges[j] < 6)
    && (forall j :: 0 <= j < |p.faces| ==> p.faces[j] < 4)
  }

  function LabelCount(p: Placement): nat
  {
    4 + |p.edges| + |p.faces|
  }

  /** Corner c lies on the corner, edge or face that carries label l. */
  predicate Touches(p: Placement, l: nat, c: nat)
  {
    if l < 4 then l < |p.corners| && p.corners[l] == c
    else if l - 4 < |p.edges| then
      p.edges[l - 4] < 6 && (c == EdgeFirst(p.edges[l - 4]) || c == EdgeSecond(p.edges[l - 4]))
    else if l - 4 - |p.edges| < |p.faces| then
      p.faces[l - 4 - |p.edges|] < 4 && c < 4 && c != OppositeCorner(p.faces[l - 4 - |p.edges|])
    else false
  }

  /** The placement template k is written for: its own corners, and its new vertices on its own edges and faces. */
  function Canonical(k: nat): (p: Placement)
    requires IsTemplate(k)
    ensures WellPlaced(p) && LabelCount(p) == 4 + NewVertexCount(k)
  {
    Placement([0, 1, 2, 3], TemplateEdges(k), TemplateFaces(k))
  }

  predicate LabelsIn(ls: seq<nat>, p: Placement)
  {
    forall i :: 0 <= i < |ls| ==> ls[i] < LabelCount(p)
  }

  /** No label of ls touches corner c, i.e. all of them lie on the face opposite c. */
  predicate Avoids(ls: seq<nat>, p: Placement, c: nat)
  {
    forall i :: 0 <= i < |ls| ==> !Touches(p, ls[i], c)
  }

  /** All labels of ls lie on one face of the original tetrahedron. */
  predicate InOneFace(ls: seq<nat>, p: Placement)
  {
    Avoids(ls, p, 0) || Avoids(ls, p, 1) || Avoids(ls, p, 2) || Avoids(ls, p, 3)
  }

  /** No row has its four points on one face; such a tetrahedron has no volume. */
  predicate NoneFlat(rows: seq<seq<nat>>, p: Placement)
  {
    forall i :: 0 <= i < |rows| && LabelsIn(rows[i], p) ==> !InOneFace(rows[i], p)
  }

  /** A row of four labels touching every corner between them. */
  predicate Spans(ls: seq<nat>, p: Placement)
  {
    |ls| == 4
    && (Touches(p, ls[0], 0) || Touches(p, ls[1], 0) || Touches(p, ls[2], 0) || Touches(p, ls[3], 0))
    && (Touches(p, ls[0], 1) || Touches(p, ls[1], 1) || Touches(p, ls[2], 1) || Touches(p, ls[3], 1))
    && (Touches(p, ls[0], 2) || Touches(p, ls[1], 2) || Touches(p, ls[2], 2) || Touches(p, ls[3], 2))
    && (Touches(p, ls[0], 3) || Touches(p, ls[1], 3) || Touches(p, ls[2], 3) || Touches(p, ls[3], 3))
  }

  /** A row spans the tetrahedron exactly when it does not lie in one face. */
  lemma SpansNotFlat(ls: seq<nat>, p: Placement)
    requires |ls| == 4
    ensures Spans(ls, p) <==> !InOneFace(ls, p)
  {
    assert forall c :: Avoids(ls, p, c) <==>
      !Touches(p, ls[0], c) && !Touches(p, ls[1], c) && !Touches(p, ls[2], c) && !Touches(p, ls[3], c);
  }

  lemma SpanningNoneFlat(r: seq<seq<nat>>, p: Placement)
    requires forall i :: 0 <= i < |r| ==> Spans(r[i], p)
    ensures NoneFlat(r, p)
  {
    forall i | 0 <= i < |r| && LabelsIn(r[i], p) ensures !InOneFace(r[i], p) {
      SpansNotFlat(r[i], p);
    }
  }

  /**
   * With every new vertex on the edge or face of `TemplateEdges` and
   * `TemplateFaces`, no emitted tetrahedron has all four vertices on one
   * face of the original.
   */
  lemma TemplateNoneFlat(k: nat)
    requires IsTemplate(k)
    ensures NoneFlat(Recipe(k), Canonical(k))
  {
    if k == 1 {
      RowsSpan1();
      SpanningNoneFlat(Recipe(1), Canonical(1));
    } else if k == 2 {
      RowsSpan2();
      SpanningNoneFlat(Recipe(2), Canonical(2));
    } else if k == 3 {
      RowsSpan3();
      SpanningNoneFlat(Recipe(3), Canonical(3));
    } else if k == 4 {
      RowsSpan4();
      SpanningNoneFlat(Recipe(4), Canonical(4));
    } else {
      RowsSpan5();
      SpanningNoneFlat(Recipe(5), Canonical(5));
    }
  }

  lemma RowsSpan1()
    ensures forall i :: 0 <= i < |Recipe(1)| ==> Spans(Recipe(1)[i], Canonical(1))
  {
    var r, p := Recipe(1), Canonical(1);
    assert Spans(r[0], p); assert Spans(r[1], p); assert Spans(r[2], p); assert Spans(r[3], p);
    forall i | 0 <= i < |r| ensures Spans(r[i], p) {
      assert i == 0 || i == 1 || i == 2 || i == 3;
    }
  }

  lemma RowsSpan2()
    ensures forall i :: 0 <= i < |Recipe(2)| ==> Spans(Recipe(2)[i], Canonical(2))
  {
    var r, p := Recipe(2), Canonical(2);
    assert Spans(r[0], p); assert Spans(r[1], p); assert Spans(r[2], p); assert Spans(r[3], p); assert Spans(r[4], p); assert Spans(r[5], p);
    forall i | 0 <= i < |r| ensures Spans(r[i], p) {
      assert i == 0 || i == 1 || i == 2 || i == 3 || i == 4 || i == 5;
    }
  }

  lemma RowsSpan3()
    ensures forall i :: 0 <= i < |Recipe(3)| ==> Spans(Recipe(3)[i], Canonical(3))
  {
    var r, p := Recipe(3), Canonical(3);
    assert Spans(r[0], p); assert Spans(r[1], p); assert Spans(r[2], p); assert Spans(r[3], p); assert Spans(r[4], p); assert Spans(r[5], p);
    forall i | 0 <= i < |r| ensures Spans(r[i], p) {
      assert i == 0 || i == 1 || i == 2 || i == 3 || i == 4 || i == 5;
    }
  }

  lemma RowsSpan4()
    ensures forall i :: 0 <= i < |Recipe(4)| ==> Spans(Recipe(4)[i], Canonical(4))
  {
    FirstRowsSpan4();
    LastRowsSpan4();
  }

  lemma FirstRowsSpan4()
    ensures forall i :: 0 <= i < 4 ==> Spans(Recipe(4)[i], Canonical(4))
  {
    var r, p := Recipe(4), Canonical(4);
    assert Spans(r[0], p); assert Spans(r[1], p); assert Spans(r[2], p); assert Spans(r[3], p);
    forall i | 0 <= i < 4 ensures Spans(r[i], p) {
      assert i == 0 || i == 1 || i == 2 || i == 3;
    }
  }

  lemma LastRowsSpan4()
    ensures forall i :: 4 <= i < 8 ==> Spans(Recipe(4)[i], Canonical(4))
  {
    var r, p := Recipe(4), Canonical(4);
    assert Spans(r[4], p); assert Spans(r[5], p); assert Spans(r[6], p); assert Spans(r[7], p);
    forall i | 4 <= i < 8 ensures Spans(r[i], p) {
      assert i == 4 || i == 5 || i == 6 || i == 7;
    }
  }

  lemma RowsSpan5()
    ensures forall i :: 0 <= i < |Recipe(5)| ==> Spans(Recipe(5)[i], Canonical(5))
  {
    FirstRowsSpan5();
    LastRowsSpan5();
  }

  lemma FirstRowsSpan5()
    ensures forall i :: 0 <= i < 5 ==> Spans(Recipe(5)[i], Canonical(5))
  {
    var r, p := Recipe(5), Canonical(5);
    assert Spans(r[0], p); assert Spans(r[1], p); assert Spans(r[2], p); assert Spans(r[3], p); assert Spans(r[4], p);
    forall i | 0 <= i < 5 ensures Spans(r[i], p) {
      assert i == 0 || i == 1 || i == 2 || i == 3 || i == 4;
    }
  }

  lemma LastRowsSpan5()
    ensures forall i :: 5 <= i < 9 ==> Spans(Recipe(5)[i], Canonical(5))
  {
    var r, p := Recipe(5), Canonical(5);
    assert Spans(r[5], p); assert Spans(r[6], p); assert Spans(r[7], p); assert Spans(r[8], p);
    forall i | 5 <= i < 9 ensures Spans(r[i], p) {
      assert i == 5 || i == 6 || i == 7 || i == 8;
    }
  }

  /**
   * The corners of row `row` taken in the order `order`: v1..v4 of a
   * template.  A permutation neither loses nor repeats a corner: four
   * distinct vertices stay four distinct vertices, and every vertex of the
   * row is one of the template's corners.
   */
  function Reordered(row: Tet, order: seq<nat>): (c: Tet)
    requires IsOrdering(order)
    ensures forall i :: 0 <= i < 4 ==> order[i] < 4 && c[i] == row[order[i]]
    ensures IsPermutation(order) && Distinct(row) ==> Distinct(c)
    ensures IsPermutation(order) ==> forall j :: 0 <= j < 4 ==> row[j] in c
  {
    SmallListFacts(order, 4);
    PermutedRow(row, order);
    [row[order[0]], row[order[1]], row[order[2]], row[order[3]]]
  }

  lemma PermutedRow(row: Tet, order: seq<nat>)
    requires IsOrdering(order) && order[0] < 4 && order[1] < 4 && order[2] < 4 && order[3] < 4
    ensures var c := [row[order[0]], row[order[1]], row[order[2]], row[order[3]]];
      && (IsPermutation(order) && Distinct(row) ==> Distinct(c))
      && (IsPermutation(order) ==> forall j :: 0 <= j < 4 ==> row[j] in c)
  {
    var c := [row[order[0]], row[order[1]], row[order[2]], row[order[3]]];
    if IsPermutation(order) {
      forall j | 0 <= j < 4 ensures row[j] in c {
        PermutationOnto(order, j);
        var i :| 0 <= i < 4 && order[i] == j;
        assert c[i] == row[j];
      }
      if Distinct(row) {
        PermutationOnto(order, 0);
        forall a, b | 0 <= a < b < 4 ensures c[a] != c[b] {
          assert order[a] != order[b];
        }
      }
    }
  }

  /** The mesh index of local label l: a corner, or the (l - 4)th appended vertex. */
  function GlobalIndex(l: nat, corners: Tet, base: int): int
    requires l < 4 + 5
  {
    if l < 4 then corners[l] else base + (l - 4)
  }

  /** The rows template k writes when the vertex matrix had `base` rows before it. */
  function Emitted(k: nat, corners: Tet, base: int): (rows: seq<Tet>)
    requires IsTemplate(k)
    ensures |rows| == TetCount(k)
  {
    RecipeRows(Recipe(k), 4 + NewVertexCount(k));
    Instantiate(Recipe(k), corners, base)
  }

  /** The quantified form of RecipeRow, for every row of a recipe. */
  lemma RecipeRows(r: seq<seq<nat>>, n: nat)
    requires forall i :: 0 <= i < |r| ==> RecipeRow(r[i], n)
    ensures forall i :: 0 <= i < |r| ==> |r[i]| == 4 && Distinct(r[i])
    ensures forall i, j :: 0 <= i < |r| && 0 <= j < |r[i]| ==> r[i][j] < n
  {
    forall i | 0 <= i < |r| ensures Distinct(r[i]) && forall j :: 0 <= j < |r[i]| ==> r[i][j] < n {
      SmallListFacts(r[i], n);
    }
  }

  /** Each label of each recipe row replaced by its mesh index. */
  function Instantiate(r: seq<seq<nat>>, corners: Tet, base: int): (rows: seq<Tet>)
    requires forall i, j :: 0 <= i < |r| && 0 <= j < |r[i]| ==> r[i][j] < 9
    requires forall i :: 0 <= i < |r| ==> |r[i]| == 4
    ensures |rows| == |r|
  {
    seq(|r|, i requires 0 <= i < |r| =>
      [GlobalIndex(r[i][0], corners, base), GlobalIndex(r[i][1], corners, base),
       GlobalIndex(r[i][2], corners, base), GlobalIndex(r[i][3], corners, base)])
  }

  /** Entry j of instantiated row i is the mesh index of label j of recipe row i. */
  lemma InstantiateIndex(r: seq<seq<nat>>, corners: Tet, base: int)
    requires forall i, j :: 0 <= i < |r| && 0 <= j < |r[i]| ==> r[i][j] < 9
    requires forall i :: 0 <= i < |r| ==> |r[i]| == 4
    ensures forall i, j :: 0 <= i < |r| && 0 <= j < 4 ==>
      Instantiate(r, corners, base)[i][j] == GlobalIndex(r[i][j], corners, base)
  {
  }

  /** The tetrahedron matrix after a template: row t overwritten, the rest appended. */
  function Subdivided(tets: seq<Tet>, t: nat, rows: seq<Tet>): (r: seq<Tet>)
    requires t < |tets| && |rows| > 0
    ensures |r| == |tets| + |rows| - 1
    ensures r[t] == rows[0]
    ensures forall i :: 0 <= i < |tets| && i != t ==> r[i] == tets[i]
    ensures forall i :: 0 < i < |rows| ==> r[|tets| + i - 1] == rows[i]
  {
    tets[t := rows[0]] + rows[1..]
  }

  /** Every index of every row is a row of a vertex matrix with n rows. */
  predicate IndicesBelow(tets: seq<Tet>, n: int)
  {
    forall i, j :: 0 <= i < |tets| && 0 <= j < 4 ==> 0 <= tets[i][j] < n
  }

  /** Every row names four distinct vertices. */
  predicate RowsDistinct(tets: seq<Tet>)
  {
    forall i :: 0 <= i < |tets| ==> Distinct(tets[i])
  }

  /**
   * If the template's corners are four distinct valid vertices, every row it
   * emits names four distinct vertices, all below the new vertex count.
   */
  lemma EmittedWellFormed(k: nat, corners: Tet, base: int)
    requires IsTemplate(k)
    requires Distinct(corners) && forall i :: 0 <= i < 4 ==> 0 <= corners[i] < base
    ensures IndicesBelow(Emitted(k, corners, base), base + NewVertexCount(k))
    ensures RowsDistinct(Emitted(k, corners, base))
  {
    RecipeRows(Recipe(k), 4 + NewVertexCount(k));
    InstantiateWellFormed(Recipe(k), NewVertexCount(k), corners, base);
  }

  lemma InstantiateWellFormed(r: seq<seq<nat>>, n: nat, corners: Tet, base: int)
    requires n <= 5
    requires forall i :: 0 <= i < |r| ==> |r[i]| == 4 && Distinct(r[i])
    requires forall i, j :: 0 <= i < |r| && 0 <= j < |r[i]| ==> r[i][j] < 4 + n
    requires Distinct(corners) && forall i :: 0 <= i < 4 ==> 0 <= corners[i] < base
    ensures IndicesBelow(Instantiate(r, corners, base), base + n)
    ensures RowsDistinct(Instantiate(r, corners, base))
  {
    var rows := Instantiate(r, corners, base);
    InstantiateIndex(r, corners, base);
    forall i, j | 0 <= i < |rows| && 0 <= j < 4 ensures 0 <= rows[i][j] < base + n {
      var l := r[i][j];
      assert rows[i][j] == GlobalIndex(l, corners, base);
      assert l < 4 + n;
      if l < 4 {
        assert 0 <= corners[l] < base;
      } else {
        assert 0 <= corners[0] < base;
      }
    }
    forall i | 0 <= i < |rows| ensures Distinct(rows[i]) {
      forall a, b | 0 <= a < b < 4 ensures rows[i][a] != rows[i][b] {
        var la, lb := r[i][a], r[i][b];
        assert la != lb;
        if la < 4 && lb < 4 {
          assert corners[la] != corners[lb];
        }
      }
    }
  }

  /**
   * A template keeps the mesh well formed: if every row had valid distinct
   * indices before, and the ordering is a permutation, the same holds after,
   * against the grown vertex count.
   */
  lemma SubdividedWellFormed(k: nat, tets: seq<Tet>, n: int, t: nat, order: seq<nat>)
    requires IsTemplate(k) && t < |tets| && IsPermutation(order)
    requires IndicesBelow(tets, n) && RowsDistinct(tets)
    ensures var after := Subdivided(tets, t, Emitted(k, Reordered(tets[t], order), n));
      IndicesBelow(after, n + NewVertexCount(k)) && RowsDistinct(after)
  {
    var c := Reordered(tets[t], order);
    var rows := Emitted(k, c, n);
    EmittedWellFormed(k, c, n);
    var after := Subdivided(tets, t, rows);
    forall i | 0 <= i < |after| ensures Distinct(after[i]) && forall j :: 0 <= j < 4 ==> 0 <= after[i][j] < n + NewVertexCount(k) {
      if i < |tets| && i != t {
        assert after[i] == tets[i];
      } else if i == t {
        assert after[i] == rows[0];
      } else {
        assert after[i] == rows[i - |tets| + 1];
      }
    }
  }
}
