/** The orthogonal wire router: a pure function from two port anchors and
    their ports to the polyline the wire is stroked along. */
module Router {
  import opened Geometry
  import opened Ports

  /** Each end of a wire first runs this far horizontally away from its
      module: right of the output, left of the input. */
  const StubLength: real := 40.0
  /** Per unit of port-index difference, the vertical leg of a forward
      route is pushed this far right. */
  const LaneSpacing: real := 10.0
  /** A detour runs this far above or below both ends. */
  const DetourClearance: real := 100.0

  /** The two ends of a wire after normalisation: `start` belongs to
      `source`, `end` belongs to `target`. */
  datatype Endpoints = Endpoints(start: Point, source: Port, end: Point, target: Port)

  /** Puts the output end first: when the first port is not an output, both
      the ports and the points trade places. */
  function Normalize(p1: Point, fromPort: Port, p2: Point, toPort: Port): (e: Endpoints)
    ensures e == Endpoints(p1, fromPort, p2, toPort) || e == Endpoints(p2, toPort, p1, fromPort)
    ensures fromPort.kind == Output ==> e == Endpoints(p1, fromPort, p2, toPort)
    ensures fromPort.kind != Output ==> e == Endpoints(p2, toPort, p1, fromPort)
    ensures e.source.kind == Output <==> fromPort.kind == Output || toPort.kind == Output
  {
    if fromPort.kind != Output then Endpoints(p2, toPort, p1, fromPort)
    else Endpoints(p1, fromPort, p2, toPort)
  }

  /** The x where the output's stub ends. */
  function StubStartX(e: Endpoints): real { e.start.x + StubLength }

  /** The x where the input's stub begins. */
  function StubEndX(e: Endpoints): real { e.end.x - StubLength }

  /** The forward route is taken when the output's stub ends no further
      right than the input's stub begins, equality included. */
  predicate IsForward(e: Endpoints) {
    StubStartX(e) <= StubEndX(e)
  }

  /** The x of the forward route's vertical leg: halfway between the stub
      ends, shifted by the difference of the two port indices. */
  function MidX(e: Endpoints): real {
    (StubStartX(e) + StubEndX(e)) / 2.0
      + ((e.source.index - e.target.index) as real) * LaneSpacing
  }

  /** The y of the detour's horizontal leg: above both ends when the start
      is higher up than the end, below both ends otherwise. */
  function DetourY(e: Endpoints): real {
    if e.start.y < e.end.y then Min(e.start.y, e.end.y) - DetourClearance
    else Max(e.start.y, e.end.y) + DetourClearance
  }

  /** The vertex list of the wire from `p1` (of `fromPort`) to `p2` (of
      `toPort`), with the output end first. */
  function MakePath(p1: Point, fromPort: Port, p2: Point, toPort: Port): (path: seq<Point>)
    ensures var e := Normalize(p1, fromPort, p2, toPort);
            && |path| == (if IsForward(e) then 5 else 6)
            && path[0] == e.start
            && path[|path| - 1] == e.end
  {
    var e := Normalize(p1, fromPort, p2, toPort);
    var start, end := e.start, e.end;
    if IsForward(e) then
      var midX := MidX(e);
      [start, Point(midX, start.y), Point(midX, end.y), Point(StubEndX(e), end.y), end]
    else
      var detourY := DetourY(e);
      [start, Point(StubStartX(e), start.y), Point(StubStartX(e), detourY),
       Point(StubEndX(e), detourY), Point(StubEndX(e), end.y), end]
  }

  // ---------------------------------------------------------------------
  // The route as a walk of horizontal and vertical moves

  /** The route described as turns rather than vertices: a forward route
      goes across to the vertical leg, down or up to the end's height, and
      across into the input; a detour goes out along the stub, to the
      detour height, back across, to the end's height and into the input. */
  function RouteMoves(e: Endpoints): seq<Move> {
    if IsForward(e) then
      [Horizontal(MidX(e)), Vertical(e.end.y), Horizontal(StubEndX(e)), Horizontal(e.end.x)]
    else
      [Horizontal(StubStartX(e)), Vertical(DetourY(e)), Horizontal(StubEndX(e)),
       Vertical(e.end.y), Horizontal(e.end.x)]
  }

  /** The router's vertex list is exactly the walk of its moves from the
      output end. */
  lemma MakePathTracesMoves(p1: Point, fromPort: Port, p2: Point, toPort: Port)
    ensures var e := Normalize(p1, fromPort, p2, toPort);
            MakePath(p1, fromPort, p2, toPort) == Trace(e.start, RouteMoves(e))
  {
    var e := Normalize(p1, fromPort, p2, toPort);
    var ms := RouteMoves(e);
    var t := Trace(e.start, ms);
    var path := MakePath(p1, fromPort, p2, toPort);
    TraceSteps(e.start, ms);
    assert t[1] == path[1];
    assert t[2] == path[2];
    assert t[3] == path[3];
    assert t[4] == path[4];
    if !IsForward(e) {
      assert t[5] == path[5];
    }
  }

  /** Every segment of every route is horizontal or vertical, in both
      branches and whatever the argument order. */
  lemma MakePathIsOrthogonal(p1: Point, fromPort: Port, p2: Point, toPort: Port)
    ensures Orthogonal(MakePath(p1, fromPort, p2, toPort))
  {
    var e := Normalize(p1, fromPort, p2, toPort);
    MakePathTracesMoves(p1, fromPort, p2, toPort);
    TraceIsOrthogonal(e.start, RouteMoves(e));
  }

  // ---------------------------------------------------------------------
  // Direction and argument order

  /** Whichever order the two ends of a connection are passed in, the wire
      starts at the output's anchor and finishes at the input's anchor. */
  lemma PathRunsOutputToInput(p1: Point, fromPort: Port, p2: Point, toPort: Port)
    requires fromPort.kind != toPort.kind
    ensures var path := MakePath(p1, fromPort, p2, toPort);
            && path[0] == (if fromPort.kind == Output then p1 else p2)
            && path[|path| - 1] == (if fromPort.kind == Output then p2 else p1)
  {
  }

  /** For an output/input pair the router does not care which end is passed
      first: swapping the arguments yields the same polyline. */
  lemma ArgumentOrderIrrelevant(p1: Point, fromPort: Port, p2: Point, toPort: Port)
    requires fromPort.kind != toPort.kind
    ensures MakePath(p1, fromPort, p2, toPort) == MakePath(p2, toPort, p1, fromPort)
  {
    assert Normalize(p1, fromPort, p2, toPort) == Normalize(p2, toPort, p1, fromPort);
  }

  // ---------------------------------------------------------------------
  // The forward branch

  /** The forward branch is chosen exactly when `start.x + 40 <= end.x - 40`
      for the output-first ends; at equality it is still chosen. */
  lemma ForwardBranchChoice(p1: Point, fromPort: Port, p2: Point, toPort: Port)
    ensures var e := Normalize(p1, fromPort, p2, toPort);
            |MakePath(p1, fromPort, p2, toPort)| == 5 <==> e.start.x + 40.0 <= e.end.x - 40.0
    ensures var e := Normalize(p1, fromPort, p2, toPort);
            e.start.x + 80.0 == e.end.x ==> |MakePath(p1, fromPort, p2, toPort)| == 5
  {
  }

  /** A forward route is a Z through a vertical leg at the mean of the two
      stub ends, moved 10 right per unit of (source index - target index):
      five vertices, with no stub vertex at the output and nothing merged
      when both ends are at the same height. */
  lemma ForwardRoute(p1: Point, fromPort: Port, p2: Point, toPort: Port)
    requires IsForward(Normalize(p1, fromPort, p2, toPort))
    ensures var e := Normalize(p1, fromPort, p2, toPort);
            var s, t := e.start, e.end;
            var midX := ((s.x + 40.0) + (t.x - 40.0)) / 2.0
                        + 10.0 * ((e.source.index - e.target.index) as real);
            MakePath(p1, fromPort, p2, toPort)
              == [s, Point(midX, s.y), Point(midX, t.y), Point(t.x - 40.0, t.y), t]
    ensures var e := Normalize(p1, fromPort, p2, toPort);
            var path := MakePath(p1, fromPort, p2, toPort);
            e.start.y == e.end.y ==> |path| == 5 && path[1] == path[2]
  {
  }

  /** With equal port indices the vertical leg of a forward route stands
      between the end of the output's stub and the start of the input's. */
  lemma ForwardLegWithinCorridor(p1: Point, fromPort: Port, p2: Point, toPort: Port)
    requires IsForward(Normalize(p1, fromPort, p2, toPort))
    requires fromPort.index == toPort.index
    ensures var e := Normalize(p1, fromPort, p2, toPort);
            var legX := MakePath(p1, fromPort, p2, toPort)[1].x;
            e.start.x + 40.0 <= legX <= e.end.x - 40.0
  {
  }

  /** Two forward wires into the same input from neighbouring output ports
      have their vertical legs exactly 10 apart, the higher index further
      right. */
  lemma LaneSeparation(p1: Point, src: Port, p2: Point, tgt: Port)
    requires src.kind == Output && tgt.kind == Input
    requires IsForward(Normalize(p1, src, p2, tgt))
    ensures var next := src.(index := src.index + 1);
            && |MakePath(p1, next, p2, tgt)| == 5
            && MakePath(p1, next, p2, tgt)[1].x == MakePath(p1, src, p2, tgt)[1].x + 10.0
            && MakePath(p1, next, p2, tgt)[2].x == MakePath(p1, src, p2, tgt)[2].x + 10.0
  {
  }

  // ---------------------------------------------------------------------
  // The detour branch

  /** A detour leaves along the output's stub, turns to the detour height,
      runs back across to the input's stub and comes down or up into the
      input: six vertices. */
  lemma DetourRoute(p1: Point, fromPort: Port, p2: Point, toPort: Port)
    requires !IsForward(Normalize(p1, fromPort, p2, toPort))
    ensures var e := Normalize(p1, fromPort, p2, toPort);
            var s, t := e.start, e.end;
            var d := DetourY(e);
            MakePath(p1, fromPort, p2, toPort)
              == [s, Point(s.x + 40.0, s.y), Point(s.x + 40.0, d), Point(t.x - 40.0, d),
                  Point(t.x - 40.0, t.y), t]
  {
  }

  /** The detour's horizontal leg lies 100 outside the vertical range of the
      two ends: above both when the start is higher up, below both
      otherwise (including when they are level). */
  lemma DetourClearsBothEnds(e: Endpoints)
    ensures e.start.y < e.end.y ==>
      DetourY(e) + 100.0 == e.start.y && DetourY(e) < e.end.y - 100.0
    ensures e.start.y >= e.end.y ==>
      DetourY(e) - 100.0 == e.start.y && DetourY(e) >= e.end.y + 100.0
    ensures DetourY(e) + 100.0 == Min(e.start.y, e.end.y) || DetourY(e) - 100.0 == Max(e.start.y, e.end.y)
  {
  }

  // ---------------------------------------------------------------------
  // Two concrete wires

  /** An output at (100, 100) wired to an input at (400, 100): the stub ends
      are 140 and 360, so the route goes forward with its vertical leg at
      250; the leg has length 0 and is kept. */
  lemma ForwardScenario()
    ensures MakePath(Point(100.0, 100.0), Port(0, Output, 0), Point(400.0, 100.0), Port(1, Input, 0))
            == [Point(100.0, 100.0), Point(250.0, 100.0), Point(250.0, 100.0),
                Point(360.0, 100.0), Point(400.0, 100.0)]
  {
  }

  /** An output at (400, 100) wired to an input at (100, 100), given input
      first: the output's stub ends at 440, past the input's stub at 60, so
      the wire detours 100 below the common height. */
  lemma DetourScenario()
    ensures MakePath(Point(100.0, 100.0), Port(1, Input, 0), Point(400.0, 100.0), Port(0, Output, 0))
            == [Point(400.0, 100.0), Point(440.0, 100.0), Point(440.0, 200.0),
                Point(60.0, 200.0), Point(60.0, 100.0), Point(100.0, 100.0)]
  {
  }
}
