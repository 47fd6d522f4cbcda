/** Plane geometry shared by the router and the canvas: points in content
    space, axis-aligned segments, and a turtle-style description of an
    orthogonal polyline as a start point followed by horizontal and vertical
    moves. */
module Geometry {

  /** A point in the canvas's content space (CGPoint, with CGFloat as real). */
  datatype Point = Point(x: real, y: real)

  function Min(a: real, b: real): (m: real)
    ensures m <= a && m <= b
    ensures m == a || m == b
  {
    if a <= b then a else b
  }

  function Max(a: real, b: real): (m: real)
    ensures a <= m && b <= m
    ensures m == a || m == b
  {
    if a <= b then b else a
  }

  /** The segment from `a` to `b` is horizontal or vertical (or has length 0). */
  predicate AxisAligned(a: Point, b: Point) {
    a.x == b.x || a.y == b.y
  }

  /** Every segment of the polyline is horizontal or vertical. */
  predicate Orthogonal(path: seq<Point>) {
    forall i :: 0 < i < |path| ==> AxisAligned(path[i - 1], path[i])
  }

  /** One step of an orthogonal walk: slide horizontally to a new x, or
      vertically to a new y, keeping the other coordinate. */
  datatype Move = Horizontal(toX: real) | Vertical(toY: real)

  function Step(p: Point, m: Move): (q: Point)
    ensures AxisAligned(p, q)
  {
    match m
    case Horizontal(x) => Point(x, p.y)
    case Vertical(y) => Point(p.x, y)
  }

  /** The polyline visited by starting at `from` and performing `moves` in
      order: `from` itself, then one vertex per move. */
  function Trace(from: Point, moves: seq<Move>): (path: seq<Point>)
    decreases |moves|
  {
    if moves == [] then [from]
    else [from] + Trace(Step(from, moves[0]), moves[1..])
  }

  /** A walk has one vertex per move plus its start, begins where it was
      started, and reaches each vertex from the previous one by the
      matching move. */
  lemma {:induction false} TraceSteps(from: Point, moves: seq<Move>)
    ensures |Trace(from, moves)| == |moves| + 1
    ensures Trace(from, moves)[0] == from
    ensures forall k :: 0 <= k < |moves| ==>
      Trace(from, moves)[k + 1] == Step(Trace(from, moves)[k], moves[k])
    decreases |moves|
  {
    if moves != [] {
      var next := Step(from, moves[0]);
      TraceSteps(next, moves[1..]);
      forall k | 0 <= k < |moves|
        ensures Trace(from, moves)[k + 1] == Step(Trace(from, moves)[k], moves[k])
      {
        if k > 0 {
          assert moves[1..][k - 1] == moves[k];
        }
      }
    }
  }

  /** A walk made of horizontal and vertical moves only ever draws
      horizontal or vertical segments. */
  lemma TraceIsOrthogonal(from: Point, moves: seq<Move>)
    ensures Orthogonal(Trace(from, moves))
  {
    TraceSteps(from, moves);
    var path := Trace(from, moves);
    forall i | 0 < i < |path|
      ensures AxisAligned(path[i - 1], path[i])
    {
      assert path[i] == Step(path[i - 1], moves[i - 1]);
    }
  }
}
