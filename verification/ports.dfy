/** Modules and their ports: the module-kind to port-count table and the
    arithmetic that lays a module's ports out along its left (inputs) and
    right (outputs) edges. */
module Ports {
  import opened Wrappers
  import opened Geometry

  /** Stands for the module's UUID: only equality is ever used. */
  type ModuleId = nat

  datatype Kind = Input | Output

  /** A port is identified by its owning module, its kind and its position
      among the ports of that kind on that module. */
  datatype Port = Port(moduleId: ModuleId, kind: Kind, index: nat)

  datatype Size = Size(width: real, height: real)

  /** A module as listed in the sidebar and placed on the canvas. */
  datatype Module = Module(
    id: ModuleId,
    name: string,
    systemImage: string,
    position: Option<Point>,
    size: Option<Size>)

  /** A frame in the coordinate space of a module's container view. */
  datatype Rect = Rect(x: real, y: real, width: real, height: real)
  {
    function MidY(): real { y + height / 2.0 }
  }

  /** A created port together with its frame inside the module container. */
  datatype PortSlot = PortSlot(port: Port, frame: Rect)

  datatype IoCount = IoCount(inputs: int, outputs: int)

  /** Every placed module's container is 160 by 160. */
  const ModuleWidth: real := 160.0
  const ModuleHeight: real := 160.0

  /** Ports are 18-point squares inset 4 points from the container's side. */
  const PortSize: real := 18.0
  const PortInset: real := 4.0

  // ---------------------------------------------------------------------
  // Case-insensitive module names

  /** Lower-cases an ASCII capital letter and leaves every other character. */
  function LowerChar(c: char): char {
    if 'A' <= c <= 'Z' then (c as int + 32) as char else c
  }

  function Lowercase(s: string): (r: string)
    ensures |r| == |s|
    ensures forall i :: 0 <= i < |s| ==> r[i] == LowerChar(s[i])
    decreases |s|
  {
    if s == [] then [] else [LowerChar(s[0])] + Lowercase(s[1..])
  }

  /** Independent reference: two names agree letter by letter once both are
      folded to lower case. */
  predicate EqualsIgnoringCase(a: string, b: string) {
    |a| == |b| && forall i :: 0 <= i < |a| ==> LowerChar(a[i]) == LowerChar(b[i])
  }

  /** For a name that is already lower case, comparing the lower-cased input
      with it is exactly case-insensitive equality. */
  lemma LowercaseMatchesLiteral(s: string, lit: string)
    requires forall i :: 0 <= i < |lit| ==> LowerChar(lit[i]) == lit[i]
    ensures Lowercase(s) == lit <==> EqualsIgnoringCase(s, lit)
  {
  }

  // ---------------------------------------------------------------------
  // Port counts per module kind

  /** Adders and subtractors take two inputs and give one output, a
      splitter takes one input and gives two, every other module has one of
      each; names match regardless of case. */
  function IoCounts(m: Module): (c: IoCount)
    ensures c == IoCount(2, 1) <==>
      EqualsIgnoringCase(m.name, "adder") || EqualsIgnoringCase(m.name, "subtractor")
    ensures c == IoCount(1, 2) <==> EqualsIgnoringCase(m.name, "splitter")
    ensures c == IoCount(1, 1) <==>
      !EqualsIgnoringCase(m.name, "adder") && !EqualsIgnoringCase(m.name, "subtractor") &&
      !EqualsIgnoringCase(m.name, "splitter")
  {
    LowercaseMatchesLiteral(m.name, "adder");
    LowercaseMatchesLiteral(m.name, "subtractor");
    LowercaseMatchesLiteral(m.name, "splitter");
    var key := Lowercase(m.name);
    if key == "adder" || key == "subtractor" then IoCount(2, 1)
    else if key == "splitter" then IoCount(1, 2)
    else IoCount(1, 1)
  }

  /** The three module kinds offered in the sidebar, spelled as the sidebar
      spells them, get their special port counts. */
  lemma SidebarModuleCounts(id: ModuleId)
    ensures IoCounts(Module(id, "Adder", "plus", None, None)) == IoCount(2, 1)
    ensures IoCounts(Module(id, "Subtractor", "minus", None, None)) == IoCount(2, 1)
    ensures IoCounts(Module(id, "Splitter", "arrow.triangle.branch", None, None)) == IoCount(1, 2)
  {
    assert EqualsIgnoringCase("Adder", "adder");
    assert EqualsIgnoringCase("Subtractor", "subtractor");
    assert EqualsIgnoringCase("Splitter", "splitter");
  }

  // ---------------------------------------------------------------------
  // Port placement

  /** The vertical centre of port `i` when `count` ports share a side of the
      given height: the side is cut into `count + 1` equal gaps. */
  function PortCentreY(i: nat, count: nat, height: real): real {
    height / ((count + 1) as real) * ((i + 1) as real)
  }

  /** The slot of port `i` of `count` ports of the given kind on a module
      whose container has the given size. */
  function PortFrame(moduleId: ModuleId, kind: Kind, i: nat, count: nat,
                     width: real, height: real): (s: PortSlot)
    ensures s.port == Port(moduleId, kind, i)
    ensures s.frame.width == PortSize && s.frame.height == PortSize
    ensures s.frame.MidY() == PortCentreY(i, count, height)
    ensures kind == Input ==> s.frame.x == PortInset
    ensures kind == Output ==> s.frame.x + s.frame.width + PortInset == width
  {
    var y := PortCentreY(i, count, height);
    var x := if kind == Input then PortInset else width - PortSize - PortInset;
    PortSlot(Port(moduleId, kind, i), Rect(x, y - PortSize / 2.0, PortSize, PortSize))
  }

  /** Each of `count` ports is centred strictly inside the side's height. */
  lemma PortCentreInside(i: nat, count: nat, height: real)
    requires i < count && 0.0 < height
    ensures 0.0 < PortCentreY(i, count, height) < height
  {
  }

  /** Consecutive ports on one side are one gap apart. */
  lemma PortsEvenlySpaced(i: nat, count: nat, height: real)
    ensures PortCentreY(i + 1, count, height) - PortCentreY(i, count, height)
            == height / ((count + 1) as real)
  {
  }

  /** The ports of one side are placed symmetrically about the side's
      middle: port `i` and port `count - 1 - i` are equally far from it. */
  lemma PortsSymmetric(i: nat, count: nat, height: real)
    requires i < count
    ensures PortCentreY(i, count, height) + PortCentreY(count - 1 - i, count, height) == height
  {
  }

  /** The ports a module gets: `inputs` input ports down the left edge,
      then `outputs` output ports down the right edge, each side indexed
      from 0. A non-positive count creates no ports on that side. */
  method CreatePorts(moduleId: ModuleId, inputs: int, outputs: int,
                     width: real, height: real) returns (created: seq<PortSlot>)
    ensures var nIn := if inputs > 0 then inputs else 0;
            var nOut := if outputs > 0 then outputs else 0;
            && |created| == nIn + nOut
            && (forall i :: 0 <= i < nIn ==>
                  created[i] == PortFrame(moduleId, Input, i, nIn, width, height))
            && (forall i :: 0 <= i < nOut ==>
                  created[nIn + i] == PortFrame(moduleId, Output, i, nOut, width, height))
    ensures forall i :: 0 <= i < |created| ==>
      && created[i].port.moduleId == moduleId
      && (created[i].port.kind == Input <==> i < inputs)
    ensures forall i, j :: 0 <= i < j < |created| ==> created[i].port != created[j].port
    ensures 0.0 < height ==>
      forall i :: 0 <= i < |created| ==> 0.0 < created[i].frame.MidY() < height
  {
    created := [];
    var nIn := if inputs > 0 then inputs else 0;
    var nOut := if outputs > 0 then outputs else 0;
    var i := 0;
    while i < nIn
      invariant 0 <= i <= nIn
      invariant |created| == i
      invariant forall k :: 0 <= k < i ==>
        created[k] == PortFrame(moduleId, Input, k, nIn, width, height)
      invariant 0.0 < height ==> forall k :: 0 <= k < i ==> 0.0 < created[k].frame.MidY() < height
    {
      var slot := PortFrame(moduleId, Input, i, nIn, width, height);
      if 0.0 < height {
        PortCentreInside(i, nIn, height);
      }
      created := created + [slot];
      i := i + 1;
    }
    var j := 0;
    while j < nOut
      invariant 0 <= j <= nOut
      invariant |created| == nIn + j
      invariant forall k :: 0 <= k < nIn ==>
        created[k] == PortFrame(moduleId, Input, k, nIn, width, height)
      invariant forall k :: 0 <= k < j ==>
        created[nIn + k] == PortFrame(moduleId, Output, k, nOut, width, height)
      invariant 0.0 < height ==> forall k :: 0 <= k < nIn + j ==> 0.0 < created[k].frame.MidY() < height
    {
      var slot := PortFrame(moduleId, Output, j, nOut, width, height);
      if 0.0 < height {
        PortCentreInside(j, nOut, height);
      }
      created := created + [slot];
      j := j + 1;
    }
    forall k | 0 <= k < |created|
      ensures created[k].port.moduleId == moduleId
      ensures created[k].port.kind == Input <==> k < inputs
    {
      if k >= nIn {
        assert created[k] == PortFrame(moduleId, Output, k - nIn, nOut, width, height);
      }
    }
    forall a, b | 0 <= a < b < |created|
      ensures created[a].port != created[b].port
    {
      if b < nIn {
        assert created[a].port.index == a && created[b].port.index == b;
      } else if a >= nIn {
        assert created[a] == PortFrame(moduleId, Output, a - nIn, nOut, width, height);
        assert created[b] == PortFrame(moduleId, Output, b - nIn, nOut, width, height);
      } else {
        assert created[a].port.kind == Input;
        assert created[b] == PortFrame(moduleId, Output, b - nIn, nOut, width, height);
      }
    }
  }

  /** Placing a module gives it the ports its kind calls for, laid out in
      the fixed 160 by 160 container. */
  method PortsForModule(m: Module) returns (created: seq<PortSlot>)
    ensures |created| == IoCounts(m).inputs + IoCounts(m).outputs
    ensures forall i :: 0 <= i < |created| ==>
      created[i].port.moduleId == m.id && 0.0 < created[i].frame.MidY() < ModuleHeight
    ensures forall i :: 0 <= i < |created| ==>
      (created[i].port.kind == Input <==> i < IoCounts(m).inputs)
    ensures var c := IoCounts(m);
            && (forall i :: 0 <= i < c.inputs ==>
                  created[i] == PortFrame(m.id, Input, i, c.inputs, ModuleWidth, ModuleHeight))
            && (forall i :: 0 <= i < c.outputs ==>
                  created[c.inputs + i] == PortFrame(m.id, Output, i, c.outputs, ModuleWidth, ModuleHeight))
    ensures forall i, j :: 0 <= i < j < |created| ==> created[i].port != created[j].port
  {
    var counts := IoCounts(m);
    created := CreatePorts(m.id, counts.inputs, counts.outputs, ModuleWidth, ModuleHeight);
  }
}
