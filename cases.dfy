/**
 * The dispatch of subdivide_mesh: the 37 edge-intersection masks the
 * cutter handles, and for each the template it runs, the vertex ordering
 * it hands over and which edge and face intersection points it forwards
 * to the template, in which slot.
 */
module Cases {
  import opened Wrappers
  import opened Tetrahedron
  import opened Templates

  const V1: nat := 0
  const V2: nat := 1
  const V3: nat := 2
  const V4: nat := 3

  const E1: nat := 0
  const E2: nat := 1
  const E3: nat := 2
  const E4: nat := 3
  const E5: nat := 4
  const E6: nat := 5

  const F1: nat := 0
  const F2: nat := 1
  const F3: nat := 2
  const F4: nat := 3

  /**
   * One branch of the dispatch: the template run, the vertex ordering, the
   * edge whose intersection point goes to each edge-point slot, and the face
   * whose intersection point goes to each face-point slot.
   */
  datatype CaseEntry = CaseEntry(template: nat, order: seq<nat>, edgeSlots: seq<nat>, faceSlots: seq<nat>)

  // family 1
  const Case1_125: bv8 := 0x13  // e1, e2, e5
  const Case1_134: bv8 := 0x0D  // e1, e3, e4
  const Case1_236: bv8 := 0x26  // e2, e3, e6
  const Case1_456: bv8 := 0x38  // e4, e5, e6

  // family 2
  const Case2_1246: bv8 := 0x2B  // e1, e2, e4, e6
  const Case2_1356: bv8 := 0x35  // e1, e3, e5, e6
  const Case2_2345: bv8 := 0x1E  // e2, e3, e4, e5

  // family 3
  const Case3_1: bv8 := 0x01  // e1
  const Case3_2: bv8 := 0x02  // e2
  const Case3_3: bv8 := 0x04  // e3
  const Case3_4: bv8 := 0x08  // e4
  const Case3_5: bv8 := 0x10  // e5
  const Case3_6: bv8 := 0x20  // e6

  // family 4
  const Case4_12: bv8 := 0x03  // e1, e2
  const Case4_13: bv8 := 0x05  // e1, e3
  const Case4_14: bv8 := 0x09  // e1, e4
  const Case4_15: bv8 := 0x11  // e1, e5
  const Case4_23: bv8 := 0x06  // e2, e3
  const Case4_25: bv8 := 0x12  // e2, e5
  const Case4_26: bv8 := 0x22  // e2, e6
  const Case4_34: bv8 := 0x0C  // e3, e4
  const Case4_36: bv8 := 0x24  // e3, e6
  const Case4_45: bv8 := 0x18  // e4, e5
  const Case4_46: bv8 := 0x28  // e4, e6
  const Case4_56: bv8 := 0x30  // e5, e6

  // family 5
  const Case5_124: bv8 := 0x0B  // e1, e2, e4
  const Case5_126: bv8 := 0x23  // e1, e2, e6
  const Case5_135: bv8 := 0x15  // e1, e3, e5
  const Case5_136: bv8 := 0x25  // e1, e3, e6
  const Case5_146: bv8 := 0x29  // e1, e4, e6
  const Case5_156: bv8 := 0x31  // e1, e5, e6
  const Case5_234: bv8 := 0x0E  // e2, e3, e4
  const Case5_235: bv8 := 0x16  // e2, e3, e5
  const Case5_245: bv8 := 0x1A  // e2, e4, e5
  const Case5_246: bv8 := 0x2A  // e2, e4, e6
  const Case5_345: bv8 := 0x1C  // e3, e4, e5
  const Case5_356: bv8 := 0x34  // e3, e5, e6

  /** The dispatch as the source writes it. */
  function LookupCaseAsWritten(m: bv8): Option<CaseEntry>
  {
    if m == Case1_125 then Some(CaseEntry(1, [V1, V3, V4, V2], [E1, E2, E5], []))
    else if m == Case1_134 then Some(CaseEntry(1, [V2, V4, V3, V1], [E1, E4, E3], []))
    else if m == Case1_236 then Some(CaseEntry(1, [V2, V1, V4, V3], [E2, E3, E6], []))
    else if m == Case1_456 then Some(CaseEntry(1, [V1, V2, V3, V4], [E4, E5, E6], []))
    else if m == Case2_1246 then Some(CaseEntry(2, [V2, V4, V3, V1], [E1, E2, E4, E6], []))
    else if m == Case2_1356 then Some(CaseEntry(2, [V4, V1, V3, V2], [E5, E1, E6, E3], []))
    else if m == Case2_2345 then Some(CaseEntry(2, [V1, V2, V3, V4], [E4, E3, E5, E2], []))
    else if m == Case3_1 then Some(CaseEntry(3, [V1, V3, V4, V2], [E1], [F4, F1]))
    else if m == Case3_2 then Some(CaseEntry(3, [V3, V4, V1, V2], [E2], [F2, F4]))
    else if m == Case3_3 then Some(CaseEntry(3, [V1, V4, V2, V3], [E3], [F3, F4]))
    else if m == Case3_4 then Some(CaseEntry(3, [V1, V2, V3, V4], [E4], [F1, F3]))
    else if m == Case3_5 then Some(CaseEntry(3, [V2, V3, V1, V4], [E5], [F2, F1]))
    else if m == Case3_6 then Some(CaseEntry(3, [V3, V1, V2, V4], [E6], [F3, F2]))
    else if m == Case4_12 then Some(CaseEntry(4, [V1, V3, V4, V2], [E1, E2], [F2, F1]))
    else if m == Case4_13 then Some(CaseEntry(4, [V3, V2, V4, V1], [E3, E1], [F1, F3]))
    else if m == Case4_14 then Some(CaseEntry(4, [V2, V4, V3, V1], [E1, E4], [F3, F4]))
    else if m == Case4_15 then Some(CaseEntry(4, [V4, V1, V3, V2], [E5, E1], [F4, F2]))
    else if m == Case4_23 then Some(CaseEntry(4, [V2, V1, V4, V3], [E2, E3], [F3, F2]))
    else if m == Case4_25 then Some(CaseEntry(4, [V3, V4, V1, V2], [E2, E5], [F1, F4]))
    else if m == Case4_26 then Some(CaseEntry(4, [V4, V2, V1, V3], [E6, E2], [F4, F3]))
    else if m == Case4_34 then Some(CaseEntry(4, [V4, V3, V2, V1], [E4, E3], [F4, F1]))
    else if m == Case4_36 then Some(CaseEntry(4, [V1, V4, V2, V3], [E3, E6], [F2, F4]))
    else if m == Case4_45 then Some(CaseEntry(4, [V1, V2, V3, V4], [E4, E5], [F2, F3]))
    else if m == Case4_46 then Some(CaseEntry(4, [V3, V1, V2, V4], [E6, E4], [F1, F2]))
    else if m == Case4_56 then Some(CaseEntry(4, [V2, V3, V1, V4], [E5, E6], [F3, F1]))
    else if m == Case5_124 then Some(CaseEntry(5, [V3, V1, V4, V2], [E1, E2, E4], [F3, F2]))
    else if m == Case5_126 then Some(CaseEntry(5, [V1, V3, V4, V2], [E1, E2, E6], [F3, F1]))
    else if m == Case5_135 then Some(CaseEntry(5, [V4, V1, V3, V2], [E1, E3, E5], [F3, F2]))
    else if m == Case5_136 then Some(CaseEntry(5, [V4, V1, V2, V3], [E1, E3, E6], [F1, F2]))
    else if m == Case5_146 then Some(CaseEntry(5, [V2, V4, V3, V1], [E1, E4, E6], [F2, F4]))
    else if m == Case5_156 then Some(CaseEntry(5, [V3, V2, V1, V4], [E1, E5, E6], [F4, F3]))
    else if m == Case5_234 then Some(CaseEntry(5, [V2, V1, V4, V3], [E2, E3, E4], [F1, F2]))
    else if m == Case5_235 then Some(CaseEntry(5, [V1, V2, V4, V3], [E2, E3, E5], [F1, F3]))
    else if m == Case5_245 then Some(CaseEntry(5, [V1, V2, V3, V4], [E2, E4, E5], [F4, F3]))
    else if m == Case5_246 then Some(CaseEntry(5, [V1, V3, V2, V4], [E2, E4, E6], [F4, F1]))
    else if m == Case5_345 then Some(CaseEntry(5, [V2, V1, V3, V4], [E3, E4, E5], [F4, F2]))
    else if m == Case5_356 then Some(CaseEntry(5, [V2, V3, V1, V4], [E3, E5, E6], [F4, F1]))
    else None
  }

  /**
   * The masks the dispatch handles, described by the shape of the cut: at
   * least one edge is hit, only edge bits are set, no face has all three
   * of its edges hit, and the cut pierces the interior of either no face or
   * exactly two faces.
   */
  predicate Accepted(m: bv8)
  {
    m != 0 && !Bit(m, 6) && !Bit(m, 7)
    && !FaceCut(m, 0) && !FaceCut(m, 1) && !FaceCut(m, 2) && !FaceCut(m, 3)
    && (PiercedCount(m) == 0 || PiercedCount(m) == 2)
  }

  /**
   * The template an accepted mask calls for, from the number of hit edges
   * and of pierced faces: (3, 0) is template 1, (4, 0) template 2, and
   * 1, 2 or 3 hit edges with two pierced faces are templates 3, 4 and 5.
   */
  function TemplateFor(m: bv8): nat
  {
    if PiercedCount(m) == 0 then (if EdgeCount(m) == 3 then 1 else 2) else EdgeCount(m) + 2
  }

  /** An entry names a template, a permutation and as many slots as the template consumes. */
  predicate Shaped(e: CaseEntry)
  {
    IsTemplate(e.template) && IsPermutation(e.order)
    && |e.edgeSlots| == EdgePointCount(e.template) && AllBelow(e.edgeSlots, 6)
    && |e.faceSlots| == FacePointCount(e.template) && AllBelow(e.faceSlots, 4)
  }

  /**
   * The entry forwards the point of every hit edge and of every pierced face,
   * each exactly once, and nothing else.
   */
  predicate CoversMask(e: CaseEntry, m: bv8)
  {
    Distinct(e.edgeSlots) && Distinct(e.faceSlots)
    && (forall i :: 0 <= i < 6 ==> (i in e.edgeSlots <==> Bit(m, i)))
    && (forall f :: 0 <= f < 4 ==> (f in e.faceSlots <==> Pierced(m, f)))
  }

  /**
   * The edge the j-th edge point of template k is placed on (its entry in
   * `TemplateEdges`) once the template's corners are relabelled by order:
   * the edge joining the relabelled ends of the template's edge.
   */
  function ExpectedEdge(k: nat, order: seq<nat>, j: nat): (e: nat)
    requires IsTemplate(k) && IsPermutation(order) && j < EdgePointCount(k)
    ensures e < 6
    ensures EdgeSet(e) == {order[EdgeEnds(TemplateEdges(k)[j])[0]], order[EdgeEnds(TemplateEdges(k)[j])[1]]}
  {
    var ends := EdgeEnds(TemplateEdges(k)[j]);
    EdgeJoining(order[ends[0]], order[ends[1]])
  }

  function ExpectedEdges(k: nat, order: seq<nat>): (s: seq<nat>)
    requires IsTemplate(k) && IsPermutation(order)
    ensures |s| == EdgePointCount(k)
    ensures forall j :: 0 <= j < |s| ==> s[j] == ExpectedEdge(k, order, j)
  {
    seq(EdgePointCount(k), j requires 0 <= j < EdgePointCount(k) => ExpectedEdge(k, order, j))
  }

  /** Each edge point sits on the edge its template slot expects. */
  predicate EdgeSlotsMatch(e: CaseEntry)
    requires Shaped(e)
  {
    forall j :: 0 <= j < |e.edgeSlots| ==> e.edgeSlots[j] == ExpectedEdge(e.template, e.order, j)
  }

  /**
   * Each face point sits on the face its template slot expects: the face
   * opposite the relabelled corner opposite the template's face.
   */
  predicate FaceSlotsMatch(e: CaseEntry)
    requires Shaped(e)
  {
    forall j :: 0 <= j < |e.faceSlots| ==>
      OppositeCorner(e.faceSlots[j]) == e.order[OppositeCorner(TemplateFaces(e.template)[j])]
  }

  /** EdgeSlotsMatch spelled out slot by slot (a template has at most four edge points). */
  predicate EdgeSlotsAgree(e: CaseEntry)
    requires Shaped(e)
  {
    var s, k := e.edgeSlots, e.template;
    (|s| > 0 ==> s[0] == ExpectedEdge(k, e.order, 0)) && (|s| > 1 ==> s[1] == ExpectedEdge(k, e.order, 1))
    && (|s| > 2 ==> s[2] == ExpectedEdge(k, e.order, 2)) && (|s| > 3 ==> s[3] == ExpectedEdge(k, e.order, 3))
  }

  /** FaceSlotsMatch spelled out slot by slot (a template has at most two face points). */
  predicate FaceSlotsAgree(e: CaseEntry)
    requires Shaped(e)
  {
    var s, k := e.faceSlots, e.template;
    (|s| > 0 ==> OppositeCorner(s[0]) == e.order[OppositeCorner(TemplateFaces(k)[0])])
    && (|s| > 1 ==> OppositeCorner(s[1]) == e.order[OppositeCorner(TemplateFaces(k)[1])])
  }

  /** The entries whose edge points are handed over in an order their template does not expect. */
  predicate Misordered(m: bv8)
  {
    m == Case2_1356 || m == Case5_124 || m == Case5_135 || m == Case5_136 || m == Case5_156
    || m == Case5_235 || m == Case5_245 || m == Case5_246 || m == Case5_345 || m == Case5_356
  }

  /**
   * What one entry of the table is checked for, without quantifiers so that
   * it can be evaluated entry by entry: the mask is accepted, the entry is
   * well shaped and runs the template the counts call for, its slots list
   * exactly the hit edges and pierced faces, each once, and its face slots
   * are where the template expects them.
   */
  predicate EntryChecked(m: bv8)
  {
    LookupCaseAsWritten(m).Some?
    && var e := LookupCaseAsWritten(m).value;
    Accepted(m) && Shaped(e) && e.template == TemplateFor(m)
    && DistinctSmall(e.edgeSlots) && MaskOf(e.edgeSlots) == m
    && DistinctSmall(e.faceSlots) && MaskOf(e.faceSlots) == PiercedMask(m)
    && FaceSlotsAgree(e)
  }

  /**
   * The edge slots of an entry are in the order its template expects, unless
   * it is one of the misordered entries; for those, the edges the template
   * expects are still exactly the hit ones, each once.
   */
  predicate OrderChecked(m: bv8)
  {
    LookupCaseAsWritten(m).Some? && Shaped(LookupCaseAsWritten(m).value)
    && var e := LookupCaseAsWritten(m).value;
    if Misordered(m)
    then (e.template == 2 || e.template == 5) && !EdgeSlotsAgree(e) && DistinctSmall(ExpectedEdges(e.template, e.order))
         && MaskOf(ExpectedEdges(e.template, e.order)) == m
    else EdgeSlotsAgree(e)
  }


  lemma Case1_125Checked()
    ensures EntryChecked(Case1_125)
  {
  }

  lemma Case1_125Ordered()
    ensures OrderChecked(Case1_125)
  {
  }

  lemma Case1_134Checked()
    ensures EntryChecked(Case1_134)
  {
  }

  lemma Case1_134Ordered()
    ensures OrderChecked(Case1_134)
  {
  }

  lemma Case1_236Checked()
    ensures EntryChecked(Case1_236)
  {
  }

  lemma Case1_236Ordered()
    ensures OrderChecked(Case1_236)
  {
  }

  lemma Case1_456Checked()
    ensures EntryChecked(Case1_456)
  {
  }

  lemma Case1_456Ordered()
    ensures OrderChecked(Case1_456)
  {
  }

  lemma Case2_1246Checked()
    ensures EntryChecked(Case2_1246)
  {
  }

  lemma Case2_1246Ordered()
    ensures OrderChecked(Case2_1246)
  {
  }

  lemma Case2_1356Checked()
    ensures EntryChecked(Case2_1356)
  {
  }

  lemma Case2_1356Ordered()
    ensures OrderChecked(Case2_1356)
  {
  }

  lemma Case2_2345Checked()
    ensures EntryChecked(Case2_2345)
  {
  }

  lemma Case2_2345Ordered()
    ensures OrderChecked(Case2_2345)
  {
  }

  lemma Case3_1Checked()
    ensures EntryChecked(Case3_1)
  {
  }

  lemma Case3_1Ordered()
    ensures OrderChecked(Case3_1)
  {
  }

  lemma Case3_2Checked()
    ensures EntryChecked(Case3_2)
  {
  }

  lemma Case3_2Ordered()
    ensures OrderChecked(Case3_2)
  {
  }

  lemma Case3_3Checked()
    ensures EntryChecked(Case3_3)
  {
  }

  lemma Case3_3Ordered()
    ensures OrderChecked(Case3_3)
  {
  }

  lemma Case3_4Checked()
    ensures EntryChecked(Case3_4)
  {
  }

  lemma Case3_4Ordered()
    ensures OrderChecked(Case3_4)
  {
  }

  lemma Case3_5Checked()
    ensures EntryChecked(Case3_5)
  {
  }

  lemma Case3_5Ordered()
    ensures OrderChecked(Case3_5)
  {
  }

  lemma Case3_6Checked()
    ensures EntryChecked(Case3_6)
  {
  }

  lemma Case3_6Ordered()
    ensures OrderChecked(Case3_6)
  {
  }

  lemma Case4_12Checked()
    ensures EntryChecked(Case4_12)
  {
  }

  lemma Case4_12Ordered()
    ensures OrderChecked(Case4_12)
  {
  }

  lemma Case4_13Checked()
    ensures EntryChecked(Case4_13)
  {
  }

  lemma Case4_13Ordered()
    ensures OrderChecked(Case4_13)
  {
  }

  lemma Case4_14Checked()
    ensures EntryChecked(Case4_14)
  {
  }

  lemma Case4_14Ordered()
    ensures OrderChecked(Case4_14)
  {
  }

  lemma Case4_15Checked()
    ensures EntryChecked(Case4_15)
  {
  }

  lemma Case4_15Ordered()
    ensures OrderChecked(Case4_15)
  {
  }

  lemma Case4_23Checked()
    ensures EntryChecked(Case4_23)
  {
  }

  lemma Case4_23Ordered()
    ensures OrderChecked(Case4_23)
  {
  }

  lemma Case4_25Checked()
    ensures EntryChecked(Case4_25)
  {
  }

  lemma Case4_25Ordered()
    ensures OrderChecked(Case4_25)
  {
  }

  lemma Case4_26Checked()
    ensures EntryChecked(Case4_26)
  {
  }

  lemma Case4_26Ordered()
    ensures OrderChecked(Case4_26)
  {
  }

  lemma Case4_34Checked()
    ensures EntryChecked(Case4_34)
  {
  }

  lemma Case4_34Ordered()
    ensures OrderChecked(Case4_34)
  {
  }

  lemma Case4_36Checked()
    ensures EntryChecked(Case4_36)
  {
  }

  lemma Case4_36Ordered()
    ensures OrderChecked(Case4_36)
  {
  }

  lemma Case4_45Checked()
    ensures EntryChecked(Case4_45)
  {
  }

  lemma Case4_45Ordered()
    ensures OrderChecked(Case4_45)
  {
  }

  lemma Case4_46Checked()
    ensures EntryChecked(Case4_46)
  {
  }

  lemma Case4_46Ordered()
    ensures OrderChecked(Case4_46)
  {
  }

  lemma Case4_56Checked()
    ensures EntryChecked(Case4_56)
  {
  }

  lemma Case4_56Ordered()
    ensures OrderChecked(Case4_56)
  {
  }

  lemma Case5_124Checked()
    ensures EntryChecked(Case5_124)
  {
  }

  lemma Case5_124Ordered()
    ensures OrderChecked(Case5_124)
  {
  }

  lemma Case5_126Checked()
    ensures EntryChecked(Case5_126)
  {
  }

  lemma Case5_126Ordered()
    ensures OrderChecked(Case5_126)
  {
  }

  lemma Case5_135Checked()
    ensures EntryChecked(Case5_135)
  {
  }

  lemma Case5_135Ordered()
    ensures OrderChecked(Case5_135)
  {
  }

  lemma Case5_136Checked()
    ensures EntryChecked(Case5_136)
  {
  }

  lemma Case5_136Ordered()
    ensures OrderChecked(Case5_136)
  {
  }

  lemma Case5_146Checked()
    ensures EntryChecked(Case5_146)
  {
  }

  lemma Case5_146Ordered()
    ensures OrderChecked(Case5_146)
  {
  }

  lemma Case5_156Checked()
    ensures EntryChecked(Case5_156)
  {
  }

  lemma Case5_156Ordered()
    ensures OrderChecked(Case5_156)
  {
  }

  lemma Case5_234Checked()
    ensures EntryChecked(Case5_234)
  {
  }

  lemma Case5_234Ordered()
    ensures OrderChecked(Case5_234)
  {
  }

  lemma Case5_235Checked()
    ensures EntryChecked(Case5_235)
  {
  }

  lemma Case5_235Ordered()
    ensures OrderChecked(Case5_235)
  {
  }

  lemma Case5_245Checked()
    ensures EntryChecked(Case5_245)
  {
  }

  lemma Case5_245Ordered()
    ensures OrderChecked(Case5_245)
  {
  }

  lemma Case5_246Checked()
    ensures EntryChecked(Case5_246)
  {
  }

  lemma Case5_246Ordered()
    ensures OrderChecked(Case5_246)
  {
  }

  lemma Case5_345Checked()
    ensures EntryChecked(Case5_345)
  {
  }

  lemma Case5_345Ordered()
    ensures OrderChecked(Case5_345)
  {
  }

  lemma Case5_356Checked()
    ensures EntryChecked(Case5_356)
  {
  }

  lemma Case5_356Ordered()
    ensures OrderChecked(Case5_356)
  {
  }

  /** Every mask the dispatch handles passes both checks. */
  lemma TableChecked(m: bv8)
    ensures LookupCaseAsWritten(m).Some? ==> EntryChecked(m) && OrderChecked(m)
  {
    if m == Case1_125 {
      Case1_125Checked();
      Case1_125Ordered();
    } else if m == Case1_134 {
      Case1_134Checked();
      Case1_134Ordered();
    } else if m == Case1_236 {
      Case1_236Checked();
      Case1_236Ordered();
    } else if m == Case1_456 {
      Case1_456Checked();
      Case1_456Ordered();
    } else if m == Case2_1246 {
      Case2_1246Checked();
      Case2_1246Ordered();
    } else if m == Case2_1356 {
      Case2_1356Checked();
      Case2_1356Ordered();
    } else if m == Case2_2345 {
      Case2_2345Checked();
      Case2_2345Ordered();
    } else if m == Case3_1 {
      Case3_1Checked();
      Case3_1Ordered();
    } else if m == Case3_2 {
      Case3_2Checked();
      Case3_2Ordered();
    } else if m == Case3_3 {
      Case3_3Checked();
      Case3_3Ordered();
    } else if m == Case3_4 {
      Case3_4Checked();
      Case3_4Ordered();
    } else if m == Case3_5 {
      Case3_5Checked();
      Case3_5Ordered();
    } else if m == Case3_6 {
      Case3_6Checked();
      Case3_6Ordered();
    } else if m == Case4_12 {
      Case4_12Checked();
      Case4_12Ordered();
    } else if m == Case4_13 {
      Case4_13Checked();
      Case4_13Ordered();
    } else if m == Case4_14 {
      Case4_14Checked();
      Case4_14Ordered();
    } else if m == Case4_15 {
      Case4_15Checked();
      Case4_15Ordered();
    } else if m == Case4_23 {
      Case4_23Checked();
      Case4_23Ordered();
    } else if m == Case4_25 {
      Case4_25Checked();
      Case4_25Ordered();
    } else if m == Case4_26 {
      Case4_26Checked();
      Case4_26Ordered();
    } else if m == Case4_34 {
      Case4_34Checked();
      Case4_34Ordered();
    } else if m == Case4_36 {
      Case4_36Checked();
      Case4_36Ordered();
    } else if m == Case4_45 {
      Case4_45Checked();
      Case4_45Ordered();
    } else if m == Case4_46 {
      Case4_46Checked();
      Case4_46Ordered();
    } else if m == Case4_56 {
      Case4_56Checked();
      Case4_56Ordered();
    } else if m == Case5_124 {
      Case5_124Checked();
      Case5_124Ordered();
    } else if m == Case5_126 {
      Case5_126Checked();
      Case5_126Ordered();
    } else if m == Case5_135 {
      Case5_135Checked();
      Case5_135Ordered();
    } else if m == Case5_136 {
      Case5_136Checked();
      Case5_136Ordered();
    } else if m == Case5_146 {
      Case5_146Checked();
      Case5_146Ordered();
    } else if m == Case5_156 {
      Case5_156Checked();
      Case5_156Ordered();
    } else if m == Case5_234 {
      Case5_234Checked();
      Case5_234Ordered();
    } else if m == Case5_235 {
      Case5_235Checked();
      Case5_235Ordered();
    } else if m == Case5_245 {
      Case5_245Checked();
      Case5_245Ordered();
    } else if m == Case5_246 {
      Case5_246Checked();
      Case5_246Ordered();
    } else if m == Case5_345 {
      Case5_345Checked();
      Case5_345Ordered();
    } else if m == Case5_356 {
      Case5_356Checked();
      Case5_356Ordered();
    }
  }

  /** The quantifier-free checks of an entry's slots mean what CoversMask states. */
  lemma CheckedCovers(e: CaseEntry, m: bv8)
    requires Shaped(e)
    requires DistinctSmall(e.edgeSlots) && MaskOf(e.edgeSlots) == m
    requires DistinctSmall(e.faceSlots) && MaskOf(e.faceSlots) == PiercedMask(m)
    ensures CoversMask(e, m)
  {
    SmallListFacts(e.edgeSlots, 6);
    SmallListFacts(e.faceSlots, 4);
    forall i | 0 <= i < 6 ensures i in e.edgeSlots <==> Bit(m, i) {
      MaskOfBits(e.edgeSlots, i);
    }
    forall f | 0 <= f < 4 ensures f in e.faceSlots <==> Pierced(m, f) {
      MaskOfBits(e.faceSlots, f);
    }
  }

  lemma EdgeSlotsAgreeMatch(e: CaseEntry)
    requires Shaped(e)
    ensures EdgeSlotsAgree(e) <==> EdgeSlotsMatch(e)
    ensures EdgeSlotsMatch(e) <==> e.edgeSlots == ExpectedEdges(e.template, e.order)
  {
    if EdgeSlotsAgree(e) {
      forall j | 0 <= j < |e.edgeSlots| ensures e.edgeSlots[j] == ExpectedEdge(e.template, e.order, j) {
        assert j == 0 || j == 1 || j == 2 || j == 3;
      }
    }
  }

  lemma FaceSlotsAgreeMatch(e: CaseEntry)
    requires Shaped(e)
    ensures FaceSlotsAgree(e) <==> FaceSlotsMatch(e)
  {
    SmallListFacts(e.faceSlots, 4);
    if FaceSlotsAgree(e) {
      forall j | 0 <= j < |e.faceSlots|
        ensures OppositeCorner(e.faceSlots[j]) == e.order[OppositeCorner(TemplateFaces(e.template)[j])]
      {
        assert j == 0 || j == 1;
      }
    }
  }

  /**
   * The dispatch handles exactly the accepted masks: at least one hit edge,
   * no face cut along all three of its edges, and zero or two pierced faces.
   * Every other mask (0, a pair of opposite edges, the three edges of a face,
   * all six edges, ...) is refused.
   */
  lemma AsWrittenAccepts(m: bv8)
    ensures LookupCaseAsWritten(m).Some? <==> Accepted(m)
  {
    TableChecked(m);
  }

  /** Every mask the dispatch handles has only the six edge bits: it is below 64. */
  lemma AsWrittenBelow64(m: bv8)
    requires LookupCaseAsWritten(m).Some?
    ensures m < 64
  {
    AsWrittenAccepts(m);
    BelowPower(m, 6);
  }

  /** The dispatch refuses the empty mask and each pair of opposite edges. */
  lemma AsWrittenRefusesPairs()
    ensures LookupCaseAsWritten(0x00).None?
    ensures LookupCaseAsWritten(0x21).None? && LookupCaseAsWritten(0x0A).None? && LookupCaseAsWritten(0x14).None?
  {
  }

  /** The dispatch refuses the three edges of any one face, and all six edges. */
  lemma AsWrittenRefusesFaces()
    ensures LookupCaseAsWritten(0x07).None? && LookupCaseAsWritten(0x19).None?
    ensures LookupCaseAsWritten(0x32).None? && LookupCaseAsWritten(0x2C).None?
    ensures LookupCaseAsWritten(0x3F).None?
  {
  }

  /**
   * Every entry of the dispatch as written: the ordering is a permutation of
   * the corners, the template is the one the counts of hit edges and pierced
   * faces call for, the forwarded edge points are exactly the hit edges and
   * the forwarded face points exactly the pierced faces, each once, and each
   * face point goes to the slot whose face its template expects.
   */
  lemma AsWrittenEntries(m: bv8)
    requires LookupCaseAsWritten(m).Some?
    ensures var e := LookupCaseAsWritten(m).value;
      Accepted(m) && Shaped(e) && e.template == TemplateFor(m) && CoversMask(e, m) && FaceSlotsMatch(e)
  {
    TableChecked(m);
    var e := LookupCaseAsWritten(m).value;
    CheckedCovers(e, m);
    FaceSlotsAgreeMatch(e);
  }

  /** An entry's edge points are in the order its template expects exactly when it is not misordered. */
  lemma AsWrittenOrder(m: bv8)
    requires LookupCaseAsWritten(m).Some?
    ensures var e := LookupCaseAsWritten(m).value;
      Shaped(e) && (EdgeSlotsMatch(e) <==> !Misordered(m))
      && (Misordered(m) ==> e.template == 2 || e.template == 5)
  {
    TableChecked(m);
    EdgeSlotsAgreeMatch(LookupCaseAsWritten(m).value);
  }

  /**
   * In the first family the fourth corner of the ordering is the corner
   * the three hit edges share (v2 for e1, e2, e5; v1 for e1, e3, e4).
   */
  lemma AsWrittenFamilyOneApex(m: bv8)
    requires LookupCaseAsWritten(m).Some? && LookupCaseAsWritten(m).value.template == 1
    ensures var e := LookupCaseAsWritten(m).value;
      |e.edgeSlots| == 3 && forall j :: 0 <= j < 3 ==> e.edgeSlots[j] < 6 && e.order[3] in EdgeSet(e.edgeSlots[j])
  {
    AsWrittenOrder(m);
    FamilyOneApex(LookupCaseAsWritten(m).value);
  }

  /** Template 1 cuts off corner v4: each of its edge points lies on an edge at v4. */
  lemma FamilyOneApex(e: CaseEntry)
    requires Shaped(e) && EdgeSlotsMatch(e) && e.template == 1
    ensures |e.edgeSlots| == 3 && forall j :: 0 <= j < 3 ==> e.edgeSlots[j] < 6 && e.order[3] in EdgeSet(e.edgeSlots[j])
  {
    var te := TemplateEdges(1);
    forall j | 0 <= j < 3 ensures e.edgeSlots[j] < 6 && e.order[3] in EdgeSet(e.edgeSlots[j]) {
      assert e.edgeSlots[j] == EdgeJoining(e.order[EdgeEnds(te[j])[0]], e.order[EdgeEnds(te[j])[1]]);
      assert EdgeEnds(te[j])[1] == 3;
    }
  }

  /** The corrected entry of an accepted mask, with the properties LookupCase promises. */
  lemma CorrectedEntry(m: bv8)
    requires LookupCaseAsWritten(m).Some?
    ensures Shaped(LookupCaseAsWritten(m).value)
    ensures var a := LookupCaseAsWritten(m).value;
      var c := a.(edgeSlots := ExpectedEdges(a.template, a.order));
      Shaped(c) && c.template == TemplateFor(m) && CoversMask(c, m) && EdgeSlotsMatch(c) && FaceSlotsMatch(c)
  {
    TableChecked(m);
    AsWrittenEntries(m);
    var a := LookupCaseAsWritten(m).value;
    var x := ExpectedEdges(a.template, a.order);
    var c := a.(edgeSlots := x);
    SmallListFacts(x, 6);
    if Misordered(m) {
      CheckedCovers(c, m);
    } else {
      EdgeSlotsAgreeMatch(a);
    }
  }

  /**
   * The dispatch with every entry handing its edge points over in the order
   * its template expects; template, ordering and face points are as written.
   */
  function LookupCase(m: bv8): (r: Option<CaseEntry>)
    ensures r.Some? <==> Accepted(m)
    ensures r.Some? ==> Shaped(r.value)
  {
    AsWrittenAccepts(m);
    if LookupCaseAsWritten(m).None? then None
    else
      CorrectedEntry(m);
      var a := LookupCaseAsWritten(m).value;
      Some(a.(edgeSlots := ExpectedEdges(a.template, a.order)))
  }

  /**
   * The entry of an accepted mask uses the template its mask shape calls
   * for, forwards exactly the hit edges and pierced faces, and hands each
   * point over in the slot its template expects.
   */
  lemma LookupCaseCorrect(m: bv8)
    requires LookupCase(m).Some?
    ensures var e := LookupCase(m).value;
      e.template == TemplateFor(m) && CoversMask(e, m) && EdgeSlotsMatch(e) && FaceSlotsMatch(e)
  {
    CorrectedEntry(m);
  }

  /** The dispatch table a cut runs: the one written in the source, or the corrected one. */
  datatype Table = AsWritten | Corrected

  /**
   * Either table answers exactly the accepted masks, with an entry that runs
   * the template the mask shape calls for and forwards exactly the hit edges
   * and pierced faces, each once.  The two tables differ only in the order
   * of the edge points of the misordered entries (`CorrectionOnlyReorders`).
   */
  function Lookup(table: Table, m: bv8): (r: Option<CaseEntry>)
    ensures r.Some? <==> Accepted(m)
    ensures r.Some? ==> Shaped(r.value) && r.value.template == TemplateFor(m) && CoversMask(r.value, m)
  {
    AsWrittenAccepts(m);
    match table
    case AsWritten =>
      if LookupCaseAsWritten(m).None? then None
      else AsWrittenEntries(m); LookupCaseAsWritten(m)
    case Corrected =>
      if LookupCase(m).None? then None
      else LookupCaseCorrect(m); LookupCase(m)
  }

  /**
   * The correction keeps each entry's template, ordering and face points and
   * the edges it forwards; it changes the order of the edge points, and does
   * so exactly for the misordered entries.
   */
  lemma CorrectionOnlyReorders(m: bv8)
    requires LookupCaseAsWritten(m).Some?
    ensures LookupCase(m).Some?
    ensures var a, c := LookupCaseAsWritten(m).value, LookupCase(m).value;
      c.template == a.template && c.order == a.order && c.faceSlots == a.faceSlots
      && (forall i :: i in c.edgeSlots <==> i in a.edgeSlots)
      && (c.edgeSlots == a.edgeSlots <==> !Misordered(m))
  {
    AsWrittenEntries(m);
    AsWrittenOrder(m);
    CorrectedEntry(m);
    var a := LookupCaseAsWritten(m).value;
    var c := a.(edgeSlots := ExpectedEdges(a.template, a.order));
    assert LookupCase(m) == Some(c);
    EdgeSlotsAgreeMatch(a);
    SameMembers(a.edgeSlots, c.edgeSlots, m);
  }

  lemma SameMembers(s: seq<nat>, t: seq<nat>, m: bv8)
    requires AllBelow(s, 6) && AllBelow(t, 6)
    requires forall i :: 0 <= i < 6 ==> (i in s <==> Bit(m, i)) && (i in t <==> Bit(m, i))
    ensures forall i :: i in s <==> i in t
  {
    SmallListFacts(s, 6);
    SmallListFacts(t, 6);
  }

  /** Where the entry puts its template's labels: corners by the ordering, new vertices on the slots' edges and faces. */
  function Placed(e: CaseEntry): (p: Placement)
    requires Shaped(e)
    ensures WellPlaced(p) && LabelCount(p) == 4 + NewVertexCount(e.template)
  {
    SmallListFacts(e.order, 4);
    SmallListFacts(e.edgeSlots, 6);
    SmallListFacts(e.faceSlots, 4);
    Placement(e.order, e.edgeSlots, e.faceSlots)
  }

  /**
   * With its points where the template expects them, an entry touches
   * corner order[c] with exactly the labels with which the template's own
   * placement touches corner c.
   */
  lemma Relabelled(e: CaseEntry)
    requires Shaped(e) && EdgeSlotsMatch(e) && FaceSlotsMatch(e)
    ensures forall l, c :: 0 <= l < 4 + NewVertexCount(e.template) && 0 <= c < 4 ==>
      (Touches(Canonical(e.template), l, c) <==> Touches(Placed(e), l, e.order[c]))
  {
    var can, pl := Canonical(e.template), Placed(e);
    EdgeSlotEnds(e);
    SmallListFacts(e.faceSlots, 4);
    forall l, c | 0 <= l < LabelCount(pl) && 0 <= c < 4
      ensures Touches(can, l, c) <==> Touches(pl, l, e.order[c])
    {
      PlacementRenamed(can, pl, e.order, l, c);
    }
  }

  /** Matching edge slots join the renamed ends of the template's edges. */
  lemma EdgeSlotEnds(e: CaseEntry)
    requires Shaped(e) && EdgeSlotsMatch(e)
    ensures forall j :: 0 <= j < |e.edgeSlots| ==>
      e.edgeSlots[j] < 6
      && EdgeSet(e.edgeSlots[j]) == {e.order[EdgeEnds(TemplateEdges(e.template)[j])[0]], e.order[EdgeEnds(TemplateEdges(e.template)[j])[1]]}
  {
    forall j | 0 <= j < |e.edgeSlots| ensures e.edgeSlots[j] == ExpectedEdge(e.template, e.order, j) {
    }
  }

  /**
   * One label of a placement whose corners, edges and faces are those of
   * `can` renamed by o touches corner o[c] exactly when the same label of
   * `can` touches c.
   */
  lemma PlacementRenamed(can: Placement, pl: Placement, o: seq<nat>, l: nat, c: nat)
    requires WellPlaced(can) && WellPlaced(pl) && IsPermutation(o)
    requires can.corners == [0, 1, 2, 3] && pl.corners == o
    requires |can.edges| == |pl.edges| && |can.faces| == |pl.faces|
    requires forall j :: 0 <= j < |pl.edges| ==>
      EdgeSet(pl.edges[j]) == {o[EdgeEnds(can.edges[j])[0]], o[EdgeEnds(can.edges[j])[1]]}
    requires forall j :: 0 <= j < |pl.faces| ==> OppositeCorner(pl.faces[j]) == o[OppositeCorner(can.faces[j])]
    requires l < LabelCount(pl) && c < 4
    ensures Touches(can, l, c) <==> Touches(pl, l, o[c])
  {
    SmallListFacts(o, 4);
    if l < 4 {
      PermutationOnto(o, 0);
    } else if l < 4 + |pl.edges| {
      EdgeRenamed(o, can.edges[l - 4], pl.edges[l - 4], c);
    } else {
      FaceRenamed(o, can.faces[l - 4 - |pl.edges|], pl.faces[l - 4 - |pl.edges|], c);
    }
  }

  lemma EdgeRenamed(o: seq<nat>, te: nat, se: nat, c: nat)
    requires IsPermutation(o) && te < 6 && se < 6 && c < 4
    requires EdgeSet(se) == {o[EdgeEnds(te)[0]], o[EdgeEnds(te)[1]]}
    ensures c == EdgeFirst(te) || c == EdgeSecond(te) <==> o[c] == EdgeFirst(se) || o[c] == EdgeSecond(se)
  {
    PermutationOnto(o, 0);
  }

  lemma FaceRenamed(o: seq<nat>, tf: nat, f: nat, c: nat)
    requires IsPermutation(o) && tf < 4 && f < 4 && c < 4
    requires OppositeCorner(f) == o[OppositeCorner(tf)]
    ensures c != OppositeCorner(tf) <==> o[c] < 4 && o[c] != OppositeCorner(f)
  {
    PermutationOnto(o, 0);
    SmallListFacts(o, 4);
  }

  /** Renaming the corners by a permutation keeps every row off the faces. */
  lemma NoneFlatRenamed(rows: seq<seq<nat>>, can: Placement, pl: Placement, o: seq<nat>)
    requires IsPermutation(o) && WellPlaced(can) && WellPlaced(pl) && LabelCount(can) == LabelCount(pl)
    requires forall l, c :: 0 <= l < LabelCount(pl) && 0 <= c < 4 ==> (Touches(can, l, c) <==> Touches(pl, l, o[c]))
    requires NoneFlat(rows, can)
    ensures NoneFlat(rows, pl)
  {
    SmallListFacts(o, 4);
    forall i | 0 <= i < |rows| && LabelsIn(rows[i], pl) ensures !InOneFace(rows[i], pl) {
      assert LabelsIn(rows[i], can);
      forall d | 0 <= d < 4 ensures !Avoids(rows[i], pl, d) {
        PermutationOnto(o, d);
        var c :| 0 <= c < 4 && o[c] == d;
        assert !Avoids(rows[i], can, c) by {
          assert c == 0 || c == 1 || c == 2 || c == 3;
        }
        var t :| 0 <= t < |rows[i]| && Touches(can, rows[i][t], c);
        assert Touches(pl, rows[i][t], d);
      }
    }
  }

  /**
   * No tetrahedron the corrected dispatch emits is flat: none has all four
   * of its vertices on one face of the tetrahedron being cut.
   */
  lemma LookupCaseNoneFlat(m: bv8)
    requires LookupCase(m).Some?
    ensures NoneFlat(Recipe(LookupCase(m).value.template), Placed(LookupCase(m).value))
  {
    var e := LookupCase(m).value;
    LookupCaseCorrect(m);
    TemplateNoneFlat(e.template);
    Relabelled(e);
    NoneFlatRenamed(Recipe(e.template), Canonical(e.template), Placed(e), e.order);
  }

  /** A row whose four labels all miss corner c lies in the face opposite c. */
  lemma FlatRow(rows: seq<seq<nat>>, p: Placement, i: nat, c: nat)
    requires i < |rows| && |rows[i]| == 4 && LabelsIn(rows[i], p) && c < 4
    requires !Touches(p, rows[i][0], c) && !Touches(p, rows[i][1], c)
    requires !Touches(p, rows[i][2], c) && !Touches(p, rows[i][3], c)
    ensures !NoneFlat(rows, p)
  {
    assert Avoids(rows[i], p, c);
  }

  /**
   * Nine of the misordered entries, as written, emit a flat tetrahedron:
   * one of the rows their template writes has all four vertices on one face
   * of the tetrahedron being cut.
   */
  lemma AsWrittenFlat(m: bv8)
    requires Misordered(m) && m != Case5_135
    ensures LookupCaseAsWritten(m).Some? && Shaped(LookupCaseAsWritten(m).value)
    ensures var a := LookupCaseAsWritten(m).value; !NoneFlat(Recipe(a.template), Placed(a))
  {
    if m == Case2_1356 {
      FlatCase2_1356();
    } else if m == Case5_124 {
      FlatCase5_124();
    } else if m == Case5_136 {
      FlatCase5_136();
    } else if m == Case5_156 {
      FlatCase5_156();
    } else if m == Case5_235 {
      FlatCase5_235();
    } else if m == Case5_245 {
      FlatCase5_245();
    } else if m == Case5_246 {
      FlatCase5_246();
    } else if m == Case5_345 {
      FlatCase5_345();
    } else {
      FlatCase5_356();
    }
  }

  lemma FlatCase2_1356()
    ensures LookupCaseAsWritten(Case2_1356).Some? && Shaped(LookupCaseAsWritten(Case2_1356).value)
    ensures var a := LookupCaseAsWritten(Case2_1356).value; !NoneFlat(Recipe(a.template), Placed(a))
  {
    var a := LookupCaseAsWritten(Case2_1356).value;
    FlatRow(Recipe(a.template), Placed(a), 2, 3);
  }

  lemma FlatCase5_124()
    ensures LookupCaseAsWritten(Case5_124).Some? && Shaped(LookupCaseAsWritten(Case5_124).value)
    ensures var a := LookupCaseAsWritten(Case5_124).value; !NoneFlat(Recipe(a.template), Placed(a))
  {
    var a := LookupCaseAsWritten(Case5_124).value;
    FlatRow(Recipe(a.template), Placed(a), 6, 0);
  }

  lemma FlatCase5_136()
    ensures LookupCaseAsWritten(Case5_136).Some? && Shaped(LookupCaseAsWritten(Case5_136).value)
    ensures var a := LookupCaseAsWritten(Case5_136).value; !NoneFlat(Recipe(a.template), Placed(a))
  {
    var a := LookupCaseAsWritten(Case5_136).value;
    FlatRow(Recipe(a.template), Placed(a), 4, 1);
  }

  lemma FlatCase5_156()
    ensures LookupCaseAsWritten(Case5_156).Some? && Shaped(LookupCaseAsWritten(Case5_156).value)
    ensures var a := LookupCaseAsWritten(Case5_156).value; !NoneFlat(Recipe(a.template), Placed(a))
  {
    var a := LookupCaseAsWritten(Case5_156).value;
    FlatRow(Recipe(a.template), Placed(a), 4, 0);
  }

  lemma FlatCase5_235()
    ensures LookupCaseAsWritten(Case5_235).Some? && Shaped(LookupCaseAsWritten(Case5_235).value)
    ensures var a := LookupCaseAsWritten(Case5_235).value; !NoneFlat(Recipe(a.template), Placed(a))
  {
    var a := LookupCaseAsWritten(Case5_235).value;
    FlatRow(Recipe(a.template), Placed(a), 6, 1);
  }

  lemma FlatCase5_245()
    ensures LookupCaseAsWritten(Case5_245).Some? && Shaped(LookupCaseAsWritten(Case5_245).value)
    ensures var a := LookupCaseAsWritten(Case5_245).value; !NoneFlat(Recipe(a.template), Placed(a))
  {
    var a := LookupCaseAsWritten(Case5_245).value;
    FlatRow(Recipe(a.template), Placed(a), 6, 1);
  }

  lemma FlatCase5_246()
    ensures LookupCaseAsWritten(Case5_246).Some? && Shaped(LookupCaseAsWritten(Case5_246).value)
    ensures var a := LookupCaseAsWritten(Case5_246).value; !NoneFlat(Recipe(a.template), Placed(a))
  {
    var a := LookupCaseAsWritten(Case5_246).value;
    FlatRow(Recipe(a.template), Placed(a), 4, 1);
  }

  lemma FlatCase5_345()
    ensures LookupCaseAsWritten(Case5_345).Some? && Shaped(LookupCaseAsWritten(Case5_345).value)
    ensures var a := LookupCaseAsWritten(Case5_345).value; !NoneFlat(Recipe(a.template), Placed(a))
  {
    var a := LookupCaseAsWritten(Case5_345).value;
    FlatRow(Recipe(a.template), Placed(a), 4, 2);
  }

  lemma FlatCase5_356()
    ensures LookupCaseAsWritten(Case5_356).Some? && Shaped(LookupCaseAsWritten(Case5_356).value)
    ensures var a := LookupCaseAsWritten(Case5_356).value; !NoneFlat(Recipe(a.template), Placed(a))
  {
    var a := LookupCaseAsWritten(Case5_356).value;
    FlatRow(Recipe(a.template), Placed(a), 4, 0);
  }
}
