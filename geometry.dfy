/**
 * Points and the geometric primitives the cutter calls but which are not
 * part of this model.  No arithmetic is done on coordinates except the
 * difference of two points; the segment/triangle test and vector
 * normalisation are passed in as functions.
 */
module Geometry {

  /** A 3D position; the reals stand for the source's doubles. */
  datatype Point = Point(x: real, y: real, z: real)

  /** A line segment (first, second), as a pair of points. */
  datatype Segment = Segment(first: Point, second: Point)

  function Sub(p: Point, q: Point): Point
  {
    Point(p.x - q.x, p.y - q.y, p.z - q.z)
  }

  /**
   * The two-sided triangle/segment test: given triangle corners a, b, c and a
   * segment (p, q) it answers whether they intersect and, if so, where.
   */
  type Oracle = (Point, Point, Point, Point, Point) -> (bool, Point)
}
