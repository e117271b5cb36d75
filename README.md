# Cutting one tetrahedron of a mesh

This project models `include/cut_tetrahedron.hpp`, the header that cuts one
tetrahedron of an index-based tetrahedral mesh with a triangle. A mesh is a
vertex matrix `V` and a tetrahedron matrix `T`. Each row of `T` holds four
vertex indices. The cut runs in four steps:

- **Edge classifier.** `get_edge_intersections` tests the cutting triangle
  against the six edges e1..e6 of the tetrahedron. It returns a 6-bit mask and
  six intersection points.
- **Face classifier.** `get_face_intersections` tests the four faces f1..f4
  against the two boundary segments of the triangle. It returns a 4-bit mask,
  with a conflict rule, and four points.
- **Dispatch.** `subdivide_mesh` compares the edge mask with 37 literal
  masks. It picks one of five templates, a corner ordering, and the edge and
  face points the template receives.
- **Templates.** Each of `subdivide_mesh_for_common_case_1..5` does three
  things:
  - appends the new vertices;
  - overwrites the cut tetrahedron's row with its first tetrahedron;
  - appends the other tetrahedra.

`cut_tetrahedron` drives these steps, after refusing two cutting segments
that do not share a start point or that point the same way.

## Modules

- `Geometry` (geometry.dfy). Points, segments, and point difference.
  - The segment/triangle test is a function parameter of type `Oracle`.
  - So is vector normalisation.
- `Tetrahedron` (tetrahedron.dfy). The fixed labelling of corners, edges and
  faces, and mask bits. It also describes the mask shapes the dispatch
  accepts:
  - a *cut* face has all three of its edges hit;
  - a *pierced* face has exactly one of its edges hit.
- `Intersections` (intersections.dfy). The two classifiers, as functions.
  - Each test answer is recorded in order (`Record`, `Tally`).
  - Slots no test writes keep the value `unset`.
- `Templates` (templates.dfy).
  - Each template's recipe: the rows it writes over local labels v1..v9
    (0..8).
  - The placement of each template's new vertices on edges and faces of its
    corners v1..v4. It is the placement the dispatch entries use, except
    the ten misordered ones (see "## Findings"). Under it no row of a
    recipe is flat. Other placements also give no flat row, so flatness
    alone does not single it out.
  - How a recipe is instantiated into mesh rows, and how the tetrahedron
    matrix changes.
- `Cases` (cases.dfy). The dispatch table twice:
  - as written (`LookupCaseAsWritten`);
  - corrected (`LookupCase`). See "## Findings".
  - `Lookup` picks one of the two by a `Table` value, `AsWritten` or
    `Corrected`.
- `Cutter` (mesh.dfy). The mesh as a class `TetMesh` whose methods grow its
  `verts` and `tets` sequences in place:
  - the five templates;
  - the dispatch;
  - the whole cut.
  - The dispatch and the cut take the table to run. With `AsWritten` they
    do what the source does, the ten misordered entries included. With
    `Corrected` they do what it evidently intends.

The source has 37 mask literals: 4 + 3 + 6 + 12 + 12.

## Model

| member | source | states |
|---|---|---|
| Tetrahedron.EdgeEnds | include/cut_tetrahedron.hpp:866-876 | edge e1..e6 joins (v1,v2), (v2,v3), (v3,v1), (v1,v4), (v2,v4), (v3,v4): two distinct corners |
| Tetrahedron.FaceCorners | include/cut_tetrahedron.hpp:934-937 | face f1..f4 is (v1,v2,v4), (v2,v3,v4), (v3,v1,v4), (v1,v3,v2): three distinct corners |
| Tetrahedron.OppositeCorner | include/cut_tetrahedron.hpp:934-937 | each face misses exactly one corner and contains the other three |
| Tetrahedron.EdgeJoining | include/cut_tetrahedron.hpp:866-876 | any two distinct corners are joined by exactly the edge it returns |
| Tetrahedron.BitOfSet | include/cut_tetrahedron.hpp:881-909 | `mask \|= 1 << i` sets bit i and leaves every other bit as it was |
| Tetrahedron.BitOfOr | include/cut_tetrahedron.hpp:1052 | a bit of `a \| b` is set exactly when it is set in a or in b |
| Tetrahedron.AndNonZero | include/cut_tetrahedron.hpp:1047 | two 4-bit masks have a non-zero `&` exactly when they share a bit |
| Tetrahedron.BelowPower | include/cut_tetrahedron.hpp:878-912 | a mask with bits n..7 clear is below 2^n |
| Tetrahedron.FaceEdges | include/cut_tetrahedron.hpp:934-937 | bit e of face f's edge mask is set exactly when edge e lies on f |
| Tetrahedron.FaceTests | include/cut_tetrahedron.hpp:148-153 | the mask test for a cut face means three of its edges are hit; the test for a pierced face means exactly one is |
| Tetrahedron.PiercedMask | include/cut_tetrahedron.hpp:148-153 | bit f of the result is set exactly when face f is pierced |
| Tetrahedron.MaskOfBits | include/cut_tetrahedron.hpp:43-46 | the mask of a list of at most four positions has exactly the listed bits set |
| Intersections.Record | include/cut_tetrahedron.hpp:881-885 | one answer sets its bit and point slot when it is a hit, and changes nothing else |
| Intersections.TallyRecorded | include/cut_tetrahedron.hpp:878-912 | after n answers, bit j is set exactly when answer j < n hit; slot j then holds its point, otherwise the initial one |
| Intersections.EdgeAnswers | include/cut_tetrahedron.hpp:865-876 | the six tests are made on the edges in the order e1..e6 |
| Intersections.EdgeIntersections | include/cut_tetrahedron.hpp:856-913 | bit e is set exactly when edge e is hit, and the mask is below 64; slot e holds the hit point when bit e is set and is untouched otherwise |
| Intersections.FaceAnswers | include/cut_tetrahedron.hpp:952-975 | the four tests of one segment are made on the faces in the order f1..f4 |
| Intersections.FacePass | include/cut_tetrahedron.hpp:948-996 | one segment's 4-bit mask has bit f set exactly when face f is hit; slot f is overwritten exactly then |
| Intersections.FaceIntersections | include/cut_tetrahedron.hpp:915-1054 | a face hit by both segments makes the mask 0; otherwise the mask is the union of the two segments' hits, below 16; the end segment's point wins a slot both wrote |
| Intersections.MergeMasks | include/cut_tetrahedron.hpp:1052 | the union of two 4-bit masks is a 4-bit mask holding both masks' bits |
| Templates.SmallListFacts | include/cut_tetrahedron.hpp:48-58 | the quantifier-free list checks mean "all below n" and "pairwise distinct" |
| Templates.PermutationOnto | include/cut_tetrahedron.hpp:48-58 | a vertex ordering that is a permutation reaches every corner, each exactly once |
| Templates.Recipe | include/cut_tetrahedron.hpp:644-853 | template k writes 4, 6, 6, 8 or 9 rows, each naming four distinct labels among its corners and new vertices |
| Templates.TemplateNoneFlat | include/cut_tetrahedron.hpp:644-853 | with new vertices on the edges and faces of `TemplateEdges` and `TemplateFaces`, no row of any template lies in one face of the tetrahedron |
| Templates.SpansNotFlat | include/cut_tetrahedron.hpp:644-853 | four labels lie in no single face exactly when together they touch all four corners |
| Templates.Reordered | include/cut_tetrahedron.hpp:651-654 | under a permutation ordering the template's corners v1..v4 are the cut row's four vertices: none lost, and four distinct vertices stay distinct |
| Templates.Emitted | include/cut_tetrahedron.hpp:644-853 | a template emits as many rows as it creates tetrahedra |
| Templates.Subdivided | include/cut_tetrahedron.hpp:666-675 | the first new row overwrites row `tetrahedron`; every other existing row is kept; the remaining rows are appended in order |
| Templates.EmittedWellFormed | include/cut_tetrahedron.hpp:651-675 | with four distinct valid corners, every emitted row has four distinct indices, all below the grown vertex count |
| Templates.SubdividedWellFormed | include/cut_tetrahedron.hpp:651-675 | if every row of T had four distinct valid indices, the same holds after the template, against the grown vertex count |
| Cases.TableChecked | include/cut_tetrahedron.hpp:48-638 | every entry of the dispatch passes the per-entry checks of shape, mask coverage and slot order |
| Cases.AsWrittenAccepts | include/cut_tetrahedron.hpp:18-641 | the dispatch returns an entry exactly for the masks with at least one hit edge, no cut face, and zero or two pierced faces |
| Cases.AsWrittenBelow64 | include/cut_tetrahedron.hpp:43-445 | every handled mask is below 64 |
| Cases.AsWrittenRefusesPairs | include/cut_tetrahedron.hpp:640 | mask 0 and the three opposite-edge pairs 0b100001, 0b001010 and 0b010100 are refused |
| Cases.AsWrittenRefusesFaces | include/cut_tetrahedron.hpp:640 | the face triangles 0b000111, 0b011001, 0b110010, 0b101100 and all six edges 0b111111 are refused |
| Cases.AsWrittenEntries | include/cut_tetrahedron.hpp:48-638 | each entry's ordering is a permutation and its template is the one the counts of hit edges and pierced faces call for; it forwards each hit edge's and each pierced face's point exactly once, and each face point in the slot its template expects |
| Cases.AsWrittenOrder | include/cut_tetrahedron.hpp:48-638 | an entry hands its edge points over in the order its template expects exactly when it is not one of the ten misordered entries |
| Cases.AsWrittenFamilyOneApex | include/cut_tetrahedron.hpp:43-99 | in family 1 the fourth corner of the ordering is an end of all three hit edges |
| Cases.FamilyOneApex | include/cut_tetrahedron.hpp:644-676 | template 1 with edge points in its expected order puts all three on edges at its v4 |
| Cases.EdgeSlotsAgreeMatch | include/cut_tetrahedron.hpp:48-638 | the slot-by-slot edge check agrees with the expected-edge list |
| Cases.FaceSlotsAgreeMatch | include/cut_tetrahedron.hpp:48-638 | the slot-by-slot face check agrees with the quantified one |
| Cases.CheckedCovers | include/cut_tetrahedron.hpp:48-638 | slot lists whose masks equal the edge mask and the pierced-face mask forward exactly those edges and faces, each once |
| Cases.CorrectedEntry | include/cut_tetrahedron.hpp:48-638 | recomputing the edge slots from template and ordering gives an entry with every property the dispatch needs |
| Cases.LookupCase | include/cut_tetrahedron.hpp:18-641 | the corrected dispatch returns an entry exactly for the accepted masks, and that entry is well shaped |
| Cases.Lookup | include/cut_tetrahedron.hpp:18-641 | either table answers exactly the accepted masks; the entry runs the template the mask shape calls for and forwards exactly the hit edges and pierced faces, each once |
| Cases.LookupCaseCorrect | include/cut_tetrahedron.hpp:48-638 | a corrected entry uses the template its mask calls for and forwards exactly the hit edges and pierced faces; every point goes to the slot its template expects |
| Cases.CorrectionOnlyReorders | include/cut_tetrahedron.hpp:105-637 | the correction keeps template, ordering, face points and the set of forwarded edges; it changes the edge slots exactly for the misordered entries |
| Cases.Placed | include/cut_tetrahedron.hpp:48-638 | an entry places its template's labels on valid corners, edges and faces |
| Cases.Relabelled | include/cut_tetrahedron.hpp:48-638 | under a corrected entry, a label touches a corner of the template exactly when it touches the corner the ordering maps it to |
| Cases.NoneFlatRenamed | include/cut_tetrahedron.hpp:48-638 | relabelling the corners by a permutation keeps every row out of a single face |
| Cases.LookupCaseNoneFlat | include/cut_tetrahedron.hpp:18-853 | under the corrected dispatch, no tetrahedron any entry emits lies in one face of the cut tetrahedron |
| Cases.AsWrittenFlat | include/cut_tetrahedron.hpp:105-637 | nine misordered entries, as written, emit a tetrahedron whose four vertices all lie on one face |
| Cases.FlatCase2_1356 | include/cut_tetrahedron.hpp:119-131 | as written, case_2_1356 emits a flat tetrahedron |
| Cases.FlatCase5_124 | include/cut_tetrahedron.hpp:447-461 | as written, case_5_124 emits a flat tetrahedron |
| Cases.FlatCase5_136 | include/cut_tetrahedron.hpp:495-509 | as written, case_5_136 emits a flat tetrahedron |
| Cases.FlatCase5_156 | include/cut_tetrahedron.hpp:527-541 | as written, case_5_156 emits a flat tetrahedron |
| Cases.FlatCase5_235 | include/cut_tetrahedron.hpp:559-573 | as written, case_5_235 emits a flat tetrahedron |
| Cases.FlatCase5_245 | include/cut_tetrahedron.hpp:575-589 | as written, case_5_245 emits a flat tetrahedron |
| Cases.FlatCase5_246 | include/cut_tetrahedron.hpp:591-605 | as written, case_5_246 emits a flat tetrahedron |
| Cases.FlatCase5_345 | include/cut_tetrahedron.hpp:607-621 | as written, case_5_345 emits a flat tetrahedron |
| Cases.FlatCase5_356 | include/cut_tetrahedron.hpp:623-637 | as written, case_5_356 emits a flat tetrahedron |
| Cutter.PickedCovers | include/cut_tetrahedron.hpp:48-638 | an entry that covers the mask hands its template the point of every hit edge and every pierced face, each from exactly one slot, and no other point |
| Cutter.EmittedCase1 | include/cut_tetrahedron.hpp:672-675 | the rows of template 1 over its corners and new vertices |
| Cutter.EmittedCase2 | include/cut_tetrahedron.hpp:711-716 | the rows of template 2 |
| Cutter.EmittedCase3 | include/cut_tetrahedron.hpp:751-756 | the rows of template 3 |
| Cutter.EmittedCase4 | include/cut_tetrahedron.hpp:795-802 | the rows of template 4 |
| Cutter.EmittedCase5 | include/cut_tetrahedron.hpp:844-852 | the rows of template 5 |
| Cutter.EntryKeepsWellFormed | include/cut_tetrahedron.hpp:644-853 | applying any shaped entry keeps every row of T four distinct valid vertex indices |
| Cutter.TetMesh.constructor | include/cut_tetrahedron.hpp:1056-1060 | the mesh holds the given V and T, and is well formed when every row of T names four distinct existing vertices |
| Cutter.TetMesh.SubdivideCase1 | include/cut_tetrahedron.hpp:644-676 | appends the 3 edge points to V; T becomes the cut row overwritten plus 3 appended rows of recipe 1 |
| Cutter.TetMesh.SubdivideCase2 | include/cut_tetrahedron.hpp:678-717 | appends the 4 edge points; T gains 5 rows of recipe 2, the first overwriting the cut row |
| Cutter.TetMesh.SubdivideCase3 | include/cut_tetrahedron.hpp:719-757 | appends the edge point then the 2 face points; T gains 5 rows of recipe 3 |
| Cutter.TetMesh.SubdivideCase4 | include/cut_tetrahedron.hpp:759-803 | appends 2 edge points then 2 face points; T gains 7 rows of recipe 4 |
| Cutter.TetMesh.SubdivideCase5 | include/cut_tetrahedron.hpp:805-853 | appends 3 edge points then 2 face points; T gains 8 rows of recipe 5 |
| Cutter.TetMesh.SubdivideWith | include/cut_tetrahedron.hpp:48-638 | runs an entry's template with its points in slot order, and keeps the mesh well formed |
| Cutter.TetMesh.Subdivide | include/cut_tetrahedron.hpp:18-641 | returns true exactly for an accepted mask; a refused mask leaves V and T unchanged, an accepted one applies the entry of the chosen table (the source's own with `AsWritten`); a well-formed mesh stays well formed |
| Cutter.TetMesh.CutTetrahedron | include/cut_tetrahedron.hpp:1056-1104 | refuses, leaving the mesh unchanged, unless the segments share their start and differ in normalised direction; otherwise it reads the corners of row t, classifies edges and faces, returns whether the edge mask is accepted, and applies that mask's entry of the chosen table with the edge points and the face points; with `AsWritten` the edge points go over in the source's order, misordered entries included |

## Left out

- The segment/triangle test is a parameter of type `Oracle`. Its floating-point arithmetic is not part of this model.
  - That test is `triangle_line_intersection_two_way`.
  - The arithmetic lives in include/intersection_tests.hpp.
- Vector normalisation and the floating-point equality of the two normalised directions are a parameter too (`normalized`). Point difference is exact over reals.
- Volume conservation, orientation and conformity of the new tetrahedra with their neighbours are not modelled: they need real-valued geometry.
  - What the model proves instead is combinatorial: in the corrected dispatch, no emitted tetrahedron has all four vertices on one face of the cut one.
- Eigen storage is a pair of sequences, not matrices. This leaves out `conservativeResize` reallocation and row/column layout.
  - The source resizes T and then writes rows one by one. The model writes the overwritten row and the appended rows in one assignment.
- Point slots that no test writes are default-initialised in the source. The model takes their value from the parameter `unset`.
- Indices are unbounded integers, not 32-bit `int`. Row counts large enough to overflow are not modelled.
- The face mask returned by the face classifier is computed but never used, as in the source. `CutTetrahedron` passes only the face points on.
- src/main.cpp, the interactive viewer, is not part of this model.
- Cases.AsWrittenBelow64: states that the handled masks are below 64. It does not state that there are exactly 37 of them; that count is the 37 distinct constants of `Cases`.

## Findings

Most dispatch entries of a template put its new vertices on the same edges and faces of its corners v1..v4, once their ordering is applied. These are all of families 1, 3 and 4, case_2_1246, case_2_2345, case_5_126, case_5_146 and case_5_234. For example, those of template 5 put:

- its three edge points on the edges (v1,v4), (v2,v4) and (v2,v3);
- its face points on faces f4 and f3.

`Templates.TemplateEdges` and `Templates.TemplateFaces` record this placement, and under it no row of a template is flat (`Templates.TemplateNoneFlat`). Ten entries hand their edge points over in another order. In the table, "expected" means the edge points in the order of that placement, once the entry's ordering is applied.

Flatness alone does not single out that placement. For case_5_135, the as-written placement gives no flat row either. The case for correcting that entry rests only on its template's other entries using the other order. Volumes and orientation are not modelled, so nothing in the model shows that its pieces fail to fill the tetrahedron.

Both halves run through the mesh: `Cutter.TetMesh.CutTetrahedron` with table `AsWritten` is the cut as written, and with `Corrected` the cut as intended.

| source | as written | input that shows it | evidently intended | confidence | as-written member | corrected member |
|---|---|---|---|---|---|---|
| include/cut_tetrahedron.hpp:119-131 | case_2_1356 passes edge points e5, e1, e6, e3 | edge mask 0b110101: row 3 of template 2 has all four vertices on the face opposite v4 | e5, e6, e1, e3 | high (not executed) | Cases.FlatCase2_1356 | Cases.LookupCaseNoneFlat |
| include/cut_tetrahedron.hpp:447-461 | case_5_124 passes e1, e2, e4 | edge mask 0b001011: row 7 of template 5 lies in one face | e2, e1, e4 | high (not executed) | Cases.FlatCase5_124 | Cases.LookupCaseNoneFlat |
| include/cut_tetrahedron.hpp:479-493 | case_5_135 passes e1, e3, e5 | edge mask 0b010101: the edge points do not sit on the edges template 5 expects | e5, e1, e3 | medium (not executed; no emitted row is flat, and the correction rests only on the placement the other template-5 entries use) | Cases.AsWrittenOrder | Cases.LookupCaseCorrect |
| include/cut_tetrahedron.hpp:495-509 | case_5_136 passes e1, e3, e6 | edge mask 0b100101: row 5 of template 5 lies in one face | e6, e3, e1 | high (not executed) | Cases.FlatCase5_136 | Cases.LookupCaseNoneFlat |
| include/cut_tetrahedron.hpp:527-541 | case_5_156 passes e1, e5, e6 | edge mask 0b110001: row 5 of template 5 lies in one face | e6, e5, e1 | high (not executed) | Cases.FlatCase5_156 | Cases.LookupCaseNoneFlat |
| include/cut_tetrahedron.hpp:559-573 | case_5_235 passes e2, e3, e5 | edge mask 0b010110: row 7 of template 5 lies in one face | e3, e2, e5 | high (not executed) | Cases.FlatCase5_235 | Cases.LookupCaseNoneFlat |
| include/cut_tetrahedron.hpp:575-589 | case_5_245 passes e2, e4, e5 | edge mask 0b011010: row 7 {v9, v6, v3, v4} of template 5 lies in face f3 | e4, e5, e2 | high (not executed) | Cases.FlatCase5_245 | Cases.LookupCaseNoneFlat |
| include/cut_tetrahedron.hpp:591-605 | case_5_246 passes e2, e4, e6 | edge mask 0b101010: row 5 of template 5 lies in one face | e4, e6, e2 | high (not executed) | Cases.FlatCase5_246 | Cases.LookupCaseNoneFlat |
| include/cut_tetrahedron.hpp:607-621 | case_5_345 passes e3, e4, e5 | edge mask 0b011100: row 5 of template 5 lies in one face | e5, e4, e3 | high (not executed) | Cases.FlatCase5_345 | Cases.LookupCaseNoneFlat |
| include/cut_tetrahedron.hpp:623-637 | case_5_356 passes e3, e5, e6 | edge mask 0b110100: row 5 of template 5 lies in one face | e5, e6, e3 | high (not executed) | Cases.FlatCase5_356 | Cases.LookupCaseNoneFlat |
