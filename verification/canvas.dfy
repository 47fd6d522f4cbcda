/** The canvas's connection bookkeeping: the port-pairing state machine
    driven by taps, the append-only list of connections, and the choice of
    which connections to re-route after a module drag or a pan/zoom. */
module Canvas {
  import opened Wrappers
  import opened Geometry
  import opened Ports
  import opened Router

  /** A wire from an output port to an input port, with the polyline its
      shape layer currently strokes. */
  datatype Connection = Connection(from: Port, to: Port, path: seq<Point>)

  /** What the canvas remembers between taps: the port awaiting a partner
      (if any), the ports drawn with a highlighted border, and the wires. */
  datatype CanvasState = CanvasState(
    selected: Option<Port>,
    highlighted: set<Port>,
    connections: seq<Connection>)

  /** The centre of each port in content space, as the view hierarchy
      reports it at the moment of the call. */
  type Anchors = Port -> Point

  /** The initial canvas: nothing selected, nothing highlighted, no wires. */
  const Empty: CanvasState := CanvasState(None, {}, [])

  /** Exactly the selected port, and no other, is highlighted. */
  predicate HighlightFollowsSelection(s: CanvasState) {
    s.highlighted == (if s.selected.Some? then {s.selected.value} else {})
  }

  /** Every wire runs from an output to an input on a different module. */
  predicate WellFormed(cs: seq<Connection>) {
    forall i :: 0 <= i < |cs| ==>
      cs[i].from.kind == Output && cs[i].to.kind == Input && cs[i].from.moduleId != cs[i].to.moduleId
  }

  /** The wire's polyline for the given anchors. */
  function Route(from: Port, to: Port, anchor: Anchors): seq<Point> {
    MakePath(anchor(from), from, anchor(to), to)
  }

  /** The connection's stored polyline is the one the router gives for the
      current anchors of its two ports. */
  predicate Current(c: Connection, anchor: Anchors) {
    c.path == Route(c.from, c.to, anchor)
  }

  // ---------------------------------------------------------------------
  // Creating connections and pairing ports

  /** Appends a wire between the two ports and routes it at once; the wires
      already there are left as they are. */
  function CreateConnection(cs: seq<Connection>, from: Port, to: Port, anchor: Anchors)
    : (r: seq<Connection>)
    ensures |r| == |cs| + 1 && r[..|cs|] == cs
    ensures r[|cs|].from == from && r[|cs|].to == to && Current(r[|cs|], anchor)
  {
    cs + [Connection(from, to, Route(from, to, anchor))]
  }

  /** Clears the selection and its highlight, and connects `from` to `to`
      unless both belong to the same module. */
  function Pair(s: CanvasState, sel: Port, from: Port, to: Port, anchor: Anchors): CanvasState {
    var cleared := CanvasState(None, s.highlighted - {sel}, s.connections);
    if from.moduleId == to.moduleId then cleared
    else cleared.(connections := CreateConnection(s.connections, from, to, anchor))
  }

  /** The canvas after the user taps port `p`. */
  function PortTapped(s: CanvasState, p: Port, anchor: Anchors): (r: CanvasState)
    ensures HighlightFollowsSelection(s) ==> HighlightFollowsSelection(r)
    ensures WellFormed(s.connections) ==> WellFormed(r.connections)
    ensures |r.connections| == |s.connections| + 1 <==>
      s.selected.Some? && s.selected.value.kind != p.kind && s.selected.value.moduleId != p.moduleId
    ensures r.connections == s.connections ||
      (|r.connections| == |s.connections| + 1 && r.connections[..|s.connections|] == s.connections)
    ensures r.selected.Some? ==> r.selected == Some(p) && r.connections == s.connections
  {
    match s.selected
    case None => CanvasState(Some(p), s.highlighted + {p}, s.connections)
    case Some(sel) =>
      if sel == p then CanvasState(None, s.highlighted - {sel}, s.connections)
      else if sel.kind == p.kind then
        CanvasState(Some(p), s.highlighted - {sel} + {p}, s.connections)
      // The kinds differ here, and there are only two, so one of the pair is
      // the output and the other the input.
      else if sel.kind == Output then Pair(s, sel, sel, p, anchor)
      else Pair(s, sel, p, sel, anchor)
  }

  /** With nothing selected, a tap selects and highlights the port and
      creates no wire. */
  lemma TapWhenIdle(s: CanvasState, p: Port, anchor: Anchors)
    requires s.selected == None
    ensures var r := PortTapped(s, p, anchor);
            r.selected == Some(p) && r.highlighted == s.highlighted + {p} && r.connections == s.connections
  {
  }

  /** Tapping the selected port again deselects it and removes its
      highlight; the wires are unchanged. */
  lemma TapSelectedAgain(s: CanvasState, p: Port, anchor: Anchors)
    requires s.selected == Some(p)
    ensures var r := PortTapped(s, p, anchor);
            r.selected == None && r.highlighted == s.highlighted - {p} && r.connections == s.connections
  {
  }

  /** Tapping another port of the selected port's kind moves the selection
      and the highlight to it; no wire is created. */
  lemma TapSameKind(s: CanvasState, a: Port, p: Port, anchor: Anchors)
    requires s.selected == Some(a) && a != p && a.kind == p.kind
    ensures var r := PortTapped(s, p, anchor);
            && r.selected == Some(p)
            && r.highlighted == s.highlighted - {a} + {p}
            && r.connections == s.connections
  {
  }

  /** Tapping a port of the other kind on another module appends exactly one
      wire, from the output to the input and routed with the current
      anchors, and clears the selection and its highlight. */
  lemma TapCompletesConnection(s: CanvasState, a: Port, p: Port, anchor: Anchors)
    requires s.selected == Some(a) && a.kind != p.kind && a.moduleId != p.moduleId
    ensures var r := PortTapped(s, p, anchor);
            var out := if a.kind == Output then a else p;
            var inp := if a.kind == Output then p else a;
            && r.connections == s.connections + [Connection(out, inp, Route(out, inp, anchor))]
            && r.selected == None
            && r.highlighted == s.highlighted - {a}
  {
  }

  /** Tapping a port of the other kind on the same module creates no wire and
      clears the selection and its highlight. */
  lemma TapSameModuleRejected(s: CanvasState, a: Port, p: Port, anchor: Anchors)
    requires s.selected == Some(a) && a.kind != p.kind && a.moduleId == p.moduleId
    ensures var r := PortTapped(s, p, anchor);
            r.selected == None && r.highlighted == s.highlighted - {a} && r.connections == s.connections
  {
  }

  /** Starting from an empty canvas, tapping an output and then an input of
      the same module leaves no wire and nothing selected. */
  lemma SelfLoopRejected(m: ModuleId, anchor: Anchors)
    ensures var s1 := PortTapped(Empty, Port(m, Output, 0), anchor);
            var s2 := PortTapped(s1, Port(m, Input, 0), anchor);
            s2 == Empty
  {
  }

  /** Starting from an empty canvas, tapping two outputs in a row re-arms
      with the second one and connects nothing. */
  lemma SameKindReArms(p1: Port, p2: Port, anchor: Anchors)
    requires p1.kind == Output && p2.kind == Output && p1 != p2
    ensures var s1 := PortTapped(Empty, p1, anchor);
            var s2 := PortTapped(s1, p2, anchor);
            s2 == CanvasState(Some(p2), {p2}, [])
  {
  }

  /** The canvas after a sequence of taps, in order. */
  function TapAll(s: CanvasState, taps: seq<Port>, anchor: Anchors): CanvasState
    decreases |taps|
  {
    if taps == [] then s
    else PortTapped(TapAll(s, taps[..|taps| - 1], anchor), taps[|taps| - 1], anchor)
  }

  /** Any run of taps from the empty canvas keeps exactly the selected port
      highlighted and only ever holds wires from an output to an input of
      another module. */
  lemma {:induction false} TapsKeepInvariants(taps: seq<Port>, anchor: Anchors)
    ensures HighlightFollowsSelection(TapAll(Empty, taps, anchor))
    ensures WellFormed(TapAll(Empty, taps, anchor).connections)
    decreases |taps|
  {
    if taps != [] {
      TapsKeepInvariants(taps[..|taps| - 1], anchor);
    }
  }

  // ---------------------------------------------------------------------
  // Re-routing

  /** Whether either end of the wire is a port of module `m`. */
  predicate Touches(c: Connection, m: ModuleId) {
    c.from.moduleId == m || c.to.moduleId == m
  }

  function Reroute(c: Connection, anchor: Anchors): Connection {
    c.(path := Route(c.from, c.to, anchor))
  }

  /** After module `m` is dragged: the wires touching `m` get freshly routed,
      every other wire is left untouched. */
  function UpdateConnections(cs: seq<Connection>, m: ModuleId, anchor: Anchors)
    : (r: seq<Connection>)
    ensures |r| == |cs|
    ensures forall i :: 0 <= i < |cs| ==> r[i].from == cs[i].from && r[i].to == cs[i].to
    ensures forall i :: 0 <= i < |cs| && Touches(cs[i], m) ==> Current(r[i], anchor)
    ensures forall i :: 0 <= i < |cs| && !Touches(cs[i], m) ==> r[i] == cs[i]
    decreases |cs|
  {
    if cs == [] then []
    else
      var c := cs[0];
      [if Touches(c, m) then Reroute(c, anchor) else c] + UpdateConnections(cs[1..], m, anchor)
  }

  /** After a pan or a zoom: every wire gets freshly routed. */
  function RedrawAllConnections(cs: seq<Connection>, anchor: Anchors): (r: seq<Connection>)
    ensures |r| == |cs|
    ensures forall i :: 0 <= i < |cs| ==> r[i].from == cs[i].from && r[i].to == cs[i].to
    ensures forall i :: 0 <= i < |cs| ==> Current(r[i], anchor)
    decreases |cs|
  {
    if cs == [] then [] else [Reroute(cs[0], anchor)] + RedrawAllConnections(cs[1..], anchor)
  }

  /** Re-routing only the wires touching the dragged module is enough: when
      every wire was current before the drag and only the dragged module's
      ports moved, the result is the same as re-routing every wire. */
  lemma DragRerouteSuffices(cs: seq<Connection>, m: ModuleId, before: Anchors, after: Anchors)
    requires forall i :: 0 <= i < |cs| ==> Current(cs[i], before)
    requires forall q: Port :: q.moduleId != m ==> before(q) == after(q)
    ensures UpdateConnections(cs, m, after) == RedrawAllConnections(cs, after)
  {
  }

  /** Re-routing is idempotent: doing it twice with the same anchors gives
      what doing it once gave, so it is safe on every drag event. */
  lemma RerouteIdempotent(cs: seq<Connection>, m: ModuleId, anchor: Anchors)
    ensures UpdateConnections(UpdateConnections(cs, m, anchor), m, anchor)
            == UpdateConnections(cs, m, anchor)
    ensures RedrawAllConnections(RedrawAllConnections(cs, anchor), anchor)
            == RedrawAllConnections(cs, anchor)
  {
  }

  /** Re-routing never changes which ports are wired, so wiring stays well
      formed. */
  lemma RerouteKeepsWellFormed(cs: seq<Connection>, m: ModuleId, anchor: Anchors)
    requires WellFormed(cs)
    ensures WellFormed(UpdateConnections(cs, m, anchor))
    ensures WellFormed(RedrawAllConnections(cs, anchor))
  {
  }
}
