/**
 * The edge and face classifiers: they turn the answers of the segment/triangle
 * test into a mask and a fixed-size array of intersection points.  Slots whose
 * bit is clear keep their initial contents, passed in as `unset`.
 */
module Intersections {
  import opened Geometry
  import opened Tetrahedron

  /** A mask and its companion point array. */
  datatype Hits = Hits(mask: bv8, points: seq<Point>)

  /** Records one test answer in slot i: set bit i and store the point. */
  function Record(h: Hits, i: nat, answer: (bool, Point)): (r: Hits)
    requires i < |h.points| && i < 8
    ensures |r.points| == |h.points|
    ensures forall j :: 0 <= j < 8 ==> (Bit(r.mask, j) <==> Bit(h.mask, j) || (j == i && answer.0))
    ensures forall j :: 0 <= j < |h.points| ==>
      r.points[j] == if j == i && answer.0 then answer.1 else h.points[j]
  {
    forall j | 0 <= j < 8 ensures Bit(h.mask | (1 << i), j) <==> Bit(h.mask, j) || j == i {
      BitOfSet(h.mask, i, j);
    }
    if answer.0 then Hits(h.mask | (1 << i), h.points[i := answer.1]) else h
  }

  /**
   * h holds the first n of the answers on top of the point array base: bit j
   * is set exactly when test j < n hit, and slot j then holds that test's
   * point and otherwise base[j].
   */
  predicate Recorded(h: Hits, answers: seq<(bool, Point)>, n: nat, base: seq<Point>)
  {
    n <= |answers| <= 8 && |h.points| == |answers| == |base|
    && (forall j :: 0 <= j < 8 ==> (Bit(h.mask, j) <==> j < n && answers[j].0))
    && (forall j :: 0 <= j < |answers| ==> h.points[j] == if j < n && answers[j].0 then answers[j].1 else base[j])
  }

  lemma RecordStart(answers: seq<(bool, Point)>, base: seq<Point>)
    requires |answers| == |base| <= 8
    ensures Recorded(Hits(0, base), answers, 0, base)
  {
    forall j | 0 <= j < 8 ensures !Bit(0, j) {
      BitOfZero(j);
    }
  }

  lemma RecordStep(h: Hits, answers: seq<(bool, Point)>, n: nat, base: seq<Point>)
    requires Recorded(h, answers, n, base) && n < |answers|
    ensures Recorded(Record(h, n, answers[n]), answers, n + 1, base)
  {
  }

  /** The answers 0..n-1 recorded in order on top of the point array base, starting from an empty mask. */
  function Tally(answers: seq<(bool, Point)>, n: nat, base: seq<Point>): (h: Hits)
    requires n <= |answers| == |base| <= 8
    ensures |h.points| == |base|
  {
    if n == 0 then Hits(0, base) else Record(Tally(answers, n - 1, base), n - 1, answers[n - 1])
  }

  lemma {:induction false} TallyRecorded(answers: seq<(bool, Point)>, n: nat, base: seq<Point>)
    requires n <= |answers| == |base| <= 8
    ensures Recorded(Tally(answers, n, base), answers, n, base)
  {
    if n == 0 {
      RecordStart(answers, base);
    } else {
      TallyRecorded(answers, n - 1, base);
      RecordStep(Tally(answers, n - 1, base), answers, n - 1, base);
    }
  }

  /** The segment along edge e of the tetrahedron with corner positions pos. */
  function EdgeSegment(pos: seq<Point>, e: nat): Segment
    requires |pos| == 4 && e < 6
  {
    Segment(pos[EdgeEnds(e)[0]], pos[EdgeEnds(e)[1]])
  }

  /** The test answer for edge e against the cutting triangle (a, b, c). */
  function EdgeAnswer(hit: Oracle, a: Point, b: Point, c: Point, pos: seq<Point>, e: nat): (bool, Point)
    requires |pos| == 4 && e < 6
  {
    var s := EdgeSegment(pos, e);
    hit(a, b, c, s.first, s.second)
  }

  /** The six edge tests, in the order of the edges. */
  lemma EdgeAnswers(hit: Oracle, a: Point, b: Point, c: Point, pos: seq<Point>, answers: seq<(bool, Point)>)
    requires |pos| == 4
    requires answers == [hit(a, b, c, pos[0], pos[1]), hit(a, b, c, pos[1], pos[2]), hit(a, b, c, pos[2], pos[0]),
                         hit(a, b, c, pos[0], pos[3]), hit(a, b, c, pos[1], pos[3]), hit(a, b, c, pos[2], pos[3])]
    ensures forall e :: 0 <= e < 6 ==> answers[e] == EdgeAnswer(hit, a, b, c, pos, e)
  {
    forall e | 0 <= e < 6 ensures answers[e] == EdgeAnswer(hit, a, b, c, pos, e) {
      if e == 0 {} else if e == 1 {} else if e == 2 {} else if e == 3 {} else if e == 4 {} else {}
    }
  }

  /**
   * Tests the cutting triangle (a, b, c) against the six edges of the
   * tetrahedron with corners v1..v4: bit i is set exactly when edge e(i+1) is
   * hit, and slot i then holds the intersection point.
   */
  function EdgeIntersections(v1: Point, v2: Point, v3: Point, v4: Point,
                             a: Point, b: Point, c: Point, hit: Oracle, unset: Point): (r: Hits)
    ensures |r.points| == 6 && r.mask < 64
    ensures forall e :: 0 <= e < 6 ==> (Bit(r.mask, e) <==> EdgeAnswer(hit, a, b, c, [v1, v2, v3, v4], e).0)
    ensures forall e :: 0 <= e < 6 ==>
      r.points[e] == if Bit(r.mask, e) then EdgeAnswer(hit, a, b, c, [v1, v2, v3, v4], e).1 else unset
  {
    var answers := [hit(a, b, c, v1, v2), hit(a, b, c, v2, v3), hit(a, b, c, v3, v1),
                    hit(a, b, c, v1, v4), hit(a, b, c, v2, v4), hit(a, b, c, v3, v4)];
    var base := [unset, unset, unset, unset, unset, unset];
    TallyRecorded(answers, 6, base);
    EdgeAnswers(hit, a, b, c, [v1, v2, v3, v4], answers);
    BelowPower(Tally(answers, 6, base).mask, 6);
    Tally(answers, 6, base)
  }

  /** The test answer for face f against the segment (p, q). */
  function FaceAnswer(hit: Oracle, pos: seq<Point>, f: nat, p: Point, q: Point): (bool, Point)
    requires |pos| == 4 && f < 4
  {
    var t := FaceCorners(f);
    hit(pos[t[0]], pos[t[1]], pos[t[2]], p, q)
  }

  /** The four face tests, in the order of the faces. */
  lemma FaceAnswers(hit: Oracle, pos: seq<Point>, p: Point, q: Point, answers: seq<(bool, Point)>)
    requires |pos| == 4
    requires answers == [hit(pos[0], pos[1], pos[3], p, q), hit(pos[1], pos[2], pos[3], p, q),
                         hit(pos[2], pos[0], pos[3], p, q), hit(pos[0], pos[2], pos[1], p, q)]
    ensures forall f :: 0 <= f < 4 ==> answers[f] == FaceAnswer(hit, pos, f, p, q)
  {
    forall f | 0 <= f < 4 ensures answers[f] == FaceAnswer(hit, pos, f, p, q) {
      if f == 0 {} else if f == 1 {} else if f == 2 {} else {}
    }
  }

  /** Runs the four face tests for one segment, on top of the point array base. */
  function FacePass(hit: Oracle, pos: seq<Point>, line: Segment, base: seq<Point>): (r: Hits)
    requires |pos| == 4 && |base| == 4
    ensures |r.points| == 4 && r.mask < 16
    ensures forall f :: 0 <= f < 4 ==> (Bit(r.mask, f) <==> FaceAnswer(hit, pos, f, line.first, line.second).0)
    ensures forall f :: 0 <= f < 4 ==>
      r.points[f] == if FaceAnswer(hit, pos, f, line.first, line.second).0
                     then FaceAnswer(hit, pos, f, line.first, line.second).1 else base[f]
  {
    var p, q := line.first, line.second;
    var answers := [hit(pos[0], pos[1], pos[3], p, q), hit(pos[1], pos[2], pos[3], p, q),
                    hit(pos[2], pos[0], pos[3], p, q), hit(pos[0], pos[2], pos[1], p, q)];
    TallyRecorded(answers, 4, base);
    FaceAnswers(hit, pos, p, q, answers);
    BelowPower(Tally(answers, 4, base).mask, 4);
    Tally(answers, 4, base)
  }

  /**
   * Tests the four faces against the two boundary segments of the cutting
   * triangle.  The end segment's points overwrite the start segment's; if
   * both segments hit a common face the mask is discarded (zero).
   */
  function FaceIntersections(pos1: Point, pos2: Point, pos3: Point, pos4: Point,
                             startLine: Segment, endLine: Segment, hit: Oracle, unset: Point): (r: Hits)
    ensures |r.points| == 4 && r.mask < 16
    ensures var pos := [pos1, pos2, pos3, pos4];
      (exists f :: 0 <= f < 4 && FaceAnswer(hit, pos, f, startLine.first, startLine.second).0
                              && FaceAnswer(hit, pos, f, endLine.first, endLine.second).0)
      ==> r.mask == 0
    ensures var pos := [pos1, pos2, pos3, pos4];
      (forall f :: 0 <= f < 4 ==> !(FaceAnswer(hit, pos, f, startLine.first, startLine.second).0
                                    && FaceAnswer(hit, pos, f, endLine.first, endLine.second).0))
      ==> forall f :: 0 <= f < 4 ==>
            (Bit(r.mask, f) <==> FaceAnswer(hit, pos, f, startLine.first, startLine.second).0
                                 || FaceAnswer(hit, pos, f, endLine.first, endLine.second).0)
    ensures var pos := [pos1, pos2, pos3, pos4];
      forall f :: 0 <= f < 4 ==>
        r.points[f] == if FaceAnswer(hit, pos, f, endLine.first, endLine.second).0
                       then FaceAnswer(hit, pos, f, endLine.first, endLine.second).1
                       else if FaceAnswer(hit, pos, f, startLine.first, startLine.second).0
                       then FaceAnswer(hit, pos, f, startLine.first, startLine.second).1
                       else unset
  {
    var pos := [pos1, pos2, pos3, pos4];
    var start := FacePass(hit, pos, startLine, [unset, unset, unset, unset]);
    var end := FacePass(hit, pos, endLine, start.points);
    AndNonZero(start.mask, end.mask);
    MergeMasks(start.mask, end.mask);
    if start.mask & end.mask != 0 then Hits(0, end.points)
    else Hits(start.mask | end.mask, end.points)
  }

  lemma MergeMasks(a: bv8, b: bv8)
    requires a < 16 && b < 16
    ensures a | b < 16
    ensures forall f :: 0 <= f < 4 ==> (Bit(a | b, f) <==> Bit(a, f) || Bit(b, f))
  {
    forall f | 0 <= f < 4 ensures Bit(a | b, f) <==> Bit(a, f) || Bit(b, f) {
      BitOfOr(a, b, f);
    }
  }
}
