/**
 * The fixed labelling of a tetrahedron that every case of the cutter is
 * written against: corners v1..v4 are 0..3, edges e1..e6 are 0..5 and
 * faces f1..f4 are 0..3.  An intersection mask is a byte whose bit i is
 * set when edge (or face) i is hit.
 */
module Tetrahedron {

  /** Edges e1..e6 join (v1,v2), (v2,v3), (v3,v1), (v1,v4), (v2,v4), (v3,v4). */
  function EdgeFirst(e: nat): nat
    requires e < 6
  {
    match e
    case 0 => 0
    case 1 => 1
    case 2 => 2
    case 3 => 0
    case 4 => 1
    case 5 => 2
  }

  function EdgeSecond(e: nat): nat
    requires e < 6
  {
    if e < 3 then (e + 1) % 3 else 3
  }

  function EdgeEnds(e: nat): (r: seq<nat>)
    requires e < 6
    ensures |r| == 2 && r[0] < 4 && r[1] < 4 && r[0] != r[1]
  {
    [EdgeFirst(e), EdgeSecond(e)]
  }

  /** Faces f1..f4 are the triangles (v1,v2,v4), (v2,v3,v4), (v3,v1,v4), (v1,v3,v2). */
  function FaceCorners(f: nat): (r: seq<nat>)
    requires f < 4
    ensures |r| == 3 && r[0] < 4 && r[1] < 4 && r[2] < 4
    ensures r[0] != r[1] && r[1] != r[2] && r[0] != r[2]
  {
    match f
    case 0 => [0, 1, 3]
    case 1 => [1, 2, 3]
    case 2 => [2, 0, 3]
    case 3 => [0, 2, 1]
  }

  function EdgeSet(e: nat): set<nat>
    requires e < 6
  {
    {EdgeEnds(e)[0], EdgeEnds(e)[1]}
  }

  /** The corner a face does not contain; a face is determined by it. */
  function OppositeCorner(f: nat): (c: nat)
    requires f < 4
    ensures c < 4 && c !in FaceCorners(f)
    ensures forall d :: 0 <= d < 4 && d != c ==> d in FaceCorners(f)
  {
    match f
    case 0 => 2
    case 1 => 0
    case 2 => 1
    case 3 => 3
  }

  /** The edge joining two distinct corners. */
  function EdgeJoining(a: nat, b: nat): (e: nat)
    requires a < 4 && b < 4 && a != b
    ensures e < 6
    ensures (EdgeEnds(e)[0] == a && EdgeEnds(e)[1] == b) || (EdgeEnds(e)[0] == b && EdgeEnds(e)[1] == a)
  {
    if a + b == 1 then 0
    else if a + b == 3 && a != 0 && b != 0 then 1
    else if a + b == 2 then 2
    else if a + b == 3 then 3
    else if a + b == 4 then 4
    else 5
  }

  /** Whether bit i of a mask is set. */
  predicate Bit(m: bv8, i: nat)
    requires i < 8
  {
    (m >> i) & 1 == 1
  }

  lemma BitOfZero(i: nat)
    requires i < 8
    ensures !Bit(0, i)
  {
  }

  /** Setting bit i with `|` sets that bit and leaves the others as they were. */
  lemma BitOfSet(m: bv8, i: nat, j: nat)
    requires i < 8 && j < 8
    ensures Bit(m | (1 << i), j) <==> Bit(m, j) || j == i
  {
    BitOfOr(m, 1 << i, j);
  }

  lemma BitOfOr(a: bv8, b: bv8, j: nat)
    requires j < 8
    ensures Bit(a | b, j) <==> Bit(a, j) || Bit(b, j)
  {
    assert (a | b) >> j == (a >> j) | (b >> j);
  }

  /** Two masks of four bits share a bit exactly when their `&` is non-zero. */
  lemma AndNonZero(a: bv8, b: bv8)
    requires a < 16 && b < 16
    ensures a & b != 0 <==> exists j :: 0 <= j < 4 && Bit(a, j) && Bit(b, j)
  {
    if a & b != 0 {
      if Bit(a, 0) && Bit(b, 0) {
      } else if Bit(a, 1) && Bit(b, 1) {
      } else if Bit(a, 2) && Bit(b, 2) {
      } else {
        assert Bit(a, 3) && Bit(b, 3);
      }
    }
  }

  /** A mask is below 2^n exactly when its bits n..7 are clear. */
  lemma BelowPower(m: bv8, n: nat)
    requires n == 4 || n == 6
    ensures (forall j :: n <= j < 8 ==> !Bit(m, j)) ==> m < (1 << n)
  {
    if n == 4 {
      if !Bit(m, 4) && !Bit(m, 5) && !Bit(m, 6) && !Bit(m, 7) {
      }
    } else if !Bit(m, 6) && !Bit(m, 7) {
    }
  }

  /** Whether edge e lies on face f, i.e. neither of its ends is the corner opposite f. */
  predicate EdgeOnFace(e: nat, f: nat)
    requires e < 6 && f < 4
  {
    EdgeEnds(e)[0] != OppositeCorner(f) && EdgeEnds(e)[1] != OppositeCorner(f)
  }

  /** The three edges of face f as a mask: f1 {e1,e4,e5}, f2 {e2,e5,e6}, f3 {e3,e4,e6}, f4 {e1,e2,e3}. */
  function FaceEdges(f: nat): (s: bv8)
    requires f < 4
    ensures forall e :: 0 <= e < 6 ==> (Bit(s, e) <==> EdgeOnFace(e, f))
    ensures !Bit(s, 6) && !Bit(s, 7)
  {
    match f
    case 0 => 0x19
    case 1 => 0x32
    case 2 => 0x2C
    case 3 => 0x07
  }

  /** Number of hit edges (bits 0..5 of m). */
  function EdgeCount(m: bv8): nat
  {
    (if Bit(m, 0) then 1 else 0) + (if Bit(m, 1) then 1 else 0) + (if Bit(m, 2) then 1 else 0)
    + (if Bit(m, 3) then 1 else 0) + (if Bit(m, 4) then 1 else 0) + (if Bit(m, 5) then 1 else 0)
  }

  /** Number of hit edges of m that lie on face f. */
  function HitsOnFace(m: bv8, f: nat): (n: nat)
    requires f < 4
    ensures n <= 3
  {
    (if Bit(m, 0) && EdgeOnFace(0, f) then 1 else 0) + (if Bit(m, 1) && EdgeOnFace(1, f) then 1 else 0)
    + (if Bit(m, 2) && EdgeOnFace(2, f) then 1 else 0) + (if Bit(m, 3) && EdgeOnFace(3, f) then 1 else 0)
    + (if Bit(m, 4) && EdgeOnFace(4, f) then 1 else 0) + (if Bit(m, 5) && EdgeOnFace(5, f) then 1 else 0)
  }

  /** All three edges of face f are hit. */
  predicate FaceCut(m: bv8, f: nat)
    requires f < 4
  {
    m & FaceEdges(f) == FaceEdges(f)
  }

  /**
   * A face the cut enters or leaves through its interior: exactly one of its
   * three edges is hit (the hit edges of f form a non-zero power of two), so
   * the trace of the cut on that face ends inside it.
   */
  predicate Pierced(m: bv8, f: nat)
    requires f < 4
  {
    var h := m & FaceEdges(f);
    h != 0 && h & (h - 1) == 0
  }

  /** The mask tests agree with counting the hit edges of the face. */
  lemma FaceTests(m: bv8, f: nat)
    requires f < 4
    ensures FaceCut(m, f) <==> HitsOnFace(m, f) == 3
    ensures Pierced(m, f) <==> HitsOnFace(m, f) == 1
  {
  }

  function PiercedCount(m: bv8): nat
  {
    (if Pierced(m, 0) then 1 else 0) + (if Pierced(m, 1) then 1 else 0)
    + (if Pierced(m, 2) then 1 else 0) + (if Pierced(m, 3) then 1 else 0)
  }

  /** The mask of pierced faces: bit f is set when face f is pierced. */
  function PiercedMask(m: bv8): (p: bv8)
    ensures forall f :: 0 <= f < 4 ==> (Bit(p, f) <==> Pierced(m, f))
    ensures p < 16
  {
    var p: bv8 := (if Pierced(m, 0) then 1 else 0) | (if Pierced(m, 1) then 2 else 0)
      | (if Pierced(m, 2) then 4 else 0) | (if Pierced(m, 3) then 8 else 0);
    assert forall f :: 0 <= f < 4 ==> (Bit(p, f) <==> Pierced(m, f)) by {
      forall f | 0 <= f < 4 ensures Bit(p, f) <==> Pierced(m, f) {
        if f == 0 {} else if f == 1 {} else if f == 2 {} else {}
      }
    }
    p
  }

  /** The mask with bit i set, or no bit when i is not a bit position. */
  function Single(i: nat): bv8
  {
    if i < 8 then (1 as bv8) << i else 0
  }

  /** The bit of the j-th listed position, if there is one. */
  function Listed(s: seq<nat>, j: nat): bv8
  {
    if j < |s| then Single(s[j]) else 0
  }

  /** The mask of the positions listed in s, for lists of up to four positions. */
  function MaskOf(s: seq<nat>): bv8
  {
    Listed(s, 0) | Listed(s, 1) | Listed(s, 2) | Listed(s, 3)
  }

  lemma SingleBit(x: nat, i: nat)
    requires i < 8
    ensures Bit(Single(x), i) <==> x == i
  {
    if x < 8 {
      BitOfZero(i);
      BitOfSet(0, x, i);
      assert (0 as bv8) | (1 << x) == Single(x);
    }
  }

  lemma ListedBit(s: seq<nat>, j: nat, i: nat)
    requires i < 8
    ensures Bit(Listed(s, j), i) <==> j < |s| && s[j] == i
  {
    BitOfZero(i);
    if j < |s| {
      SingleBit(s[j], i);
    }
  }

  lemma MaskOfBits(s: seq<nat>, i: nat)
    requires |s| <= 4 && i < 8
    ensures Bit(MaskOf(s), i) <==> i in s
  {
    BitOfOr(Listed(s, 0) | Listed(s, 1) | Listed(s, 2), Listed(s, 3), i);
    BitOfOr(Listed(s, 0) | Listed(s, 1), Listed(s, 2), i);
    BitOfOr(Listed(s, 0), Listed(s, 1), i);
    ListedBit(s, 0, i);
    ListedBit(s, 1, i);
    ListedBit(s, 2, i);
    ListedBit(s, 3, i);
    if i in s {
      var j :| 0 <= j < |s| && s[j] == i;
      assert j == 0 || j == 1 || j == 2 || j == 3;
    }
  }
}
