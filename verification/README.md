# Puter wire routing and connection bookkeeping, in Dafny

Puter is a touch-driven node-graph editor. Modules sit on a pannable,
zoomable canvas. Tapping an output port and then an input port wires them
together. Wires are drawn as right-angled polylines and re-routed live
while a module is dragged. This project models the parts of that editor
that do not depend on UIKit:

- `Router` (`router.dfy`) models `OrthogonalConnectionRouter.makePath`.
  It is a pure function from two port anchors and their ports to a vertex
  list. It puts the output end first, then takes either the forward Z-shaped
  route or the detour around the top or bottom.
- `Ports` (`ports.dfy`) models modules and ports: the name-to-port-count
  table `ioCounts` and the port-frame arithmetic of `createPorts`.
- `Canvas` (`canvas.dfy`) models the bookkeeping in `ZoomingCanvasView`:
  - the tap-driven pairing state machine `portTapped`;
  - the append-only `createConnection`;
  - re-routing the wires of a dragged module (`updateConnections`) or of
    every wire after a pan or zoom (`redrawAllConnections`).
- `Geometry` (`geometry.dfy`) holds points over `real` and an independent
  way to describe an orthogonal polyline: a start point plus horizontal and
  vertical moves (`Trace`). The router's output is proved equal to such a
  walk, which gives orthogonality for every input.
- `Wrappers` (`wrappers.dfy`) holds `Option`.

The `UIBezierPath` only collects `move`/`addLine` calls, so the router
returns `seq<Point>`. Port anchors come from `UIView.convert`, so they are
a parameter `anchor: Port -> Point`. Port identity (`===` on `PortView`
objects) is equality of (module id, kind, index). `CreatePorts` proves that
this triple is unique among one module's ports. It is unique across modules
because `Module.placed(at:size:)` builds a new `Module`, which gets a fresh
UUID, on every placement (PannableGridModulesApp.swift:5 and 18-19).

The router's behaviour as written, which the model follows exactly:
- The constants are a 40 stub, 10 per unit of port-index difference, and a
  100 detour clearance.
- The forward route has five vertices. There is no separate vertex at the
  end of the output's stub. When both ends are level, the zero-length
  vertical leg is kept rather than collapsed.
- The detour always runs above or below both ends. It never runs through
  the vertical midpoint. It goes below when the ends are level.
- The same index bias applies whether or not the indices are equal. With
  equal indices, the bias is 0.
- When the first argument is not an output, the ports and points are
  swapped and the result is not reversed. The wire always runs from the
  output end to the input end.
- Bends are not rounded into arcs. The rounded look comes from the
  renderer's round line join.

## Model

| member | source | states |
|---|---|---|
| Router.Normalize | Puter/OrthogonalConnectionRouter.swift:8-16 | Normalisation keeps the argument order exactly when the first port is an output, and otherwise swaps both the ports and their points, so each point stays with its own port. Afterwards the first port is an output exactly when either argument was. |
| Router.MakePath | Puter/OrthogonalConnectionRouter.swift:6-51 | The vertex list starts at the output-side point and ends at the input-side point. It has 5 vertices in the forward branch and 6 in the detour branch. |
| Router.PathRunsOutputToInput | Puter/OrthogonalConnectionRouter.swift:13-22 | For an output/input pair given in either order, the wire starts at the output's anchor and ends at the input's anchor. |
| Router.ArgumentOrderIrrelevant | Puter/OrthogonalConnectionRouter.swift:13-16 | Swapping the two (point, port) arguments of an output/input pair gives the same polyline. |
| Router.ForwardBranchChoice | Puter/OrthogonalConnectionRouter.swift:18-24 | The forward branch is taken exactly when start.x + 40 <= end.x - 40. The equality case counts as forward. |
| Router.ForwardRoute | Puter/OrthogonalConnectionRouter.swift:24-33 | The forward route is [start, (midX, start.y), (midX, end.y), (end.x - 40, end.y), end], where midX is the mean of the stub ends plus 10 × (source index - target index). Level ends still give 5 vertices, with two of them equal. |
| Router.ForwardLegWithinCorridor | Puter/OrthogonalConnectionRouter.swift:24-28 | With equal port indices, the vertical leg lies between start.x + 40 and end.x - 40. |
| Router.LaneSeparation | Puter/OrthogonalConnectionRouter.swift:26-31 | Raising the output port's index by one moves the forward route's vertical leg exactly 10 to the right. |
| Router.DetourRoute | Puter/OrthogonalConnectionRouter.swift:34-48 | The detour route is [start, (start.x + 40, start.y), (start.x + 40, detourY), (end.x - 40, detourY), (end.x - 40, end.y), end]. |
| Router.DetourClearsBothEnds | Puter/OrthogonalConnectionRouter.swift:37-42 | detourY is exactly 100 above the start and more than 100 above the end when the start is higher up. Otherwise it is exactly 100 below the start and at least 100 below the end. So it is 100 outside the endpoints' y-range. |
| Router.MakePathTracesMoves | Puter/OrthogonalConnectionRouter.swift:22-48 | In both branches, the router's vertex list equals a walk from the output end made of horizontal and vertical moves only. |
| Router.MakePathIsOrthogonal | Puter/OrthogonalConnectionRouter.swift:30-48 | In every case, each pair of consecutive vertices shares its x or its y. |
| Router.ForwardScenario | Puter/OrthogonalConnectionRouter.swift:24-33 | An output at (100,100) wired to an input at (400,100) gives (100,100), (250,100), (250,100), (360,100), (400,100). |
| Router.DetourScenario | Puter/OrthogonalConnectionRouter.swift:13-48 | Passing the input at (100,100) first and the output at (400,100) second gives a detour 100 below: (400,100), (440,100), (440,200), (60,200), (60,100), (100,100). |
| Ports.Lowercase | Puter/ZoomingCanvasView.swift:59 | Lower-casing keeps the length and folds each character independently. |
| Ports.IoCounts | Puter/ZoomingCanvasView.swift:58-67 | The result is (2 inputs, 1 output) exactly when the name equals "adder" or "subtractor" ignoring case, and (1, 2) exactly when it equals "splitter". Every other name gives (1, 1). |
| Ports.SidebarModuleCounts | Puter/PannableGridModulesApp.swift:35-41 | The sidebar's "Adder", "Subtractor" and "Splitter" get (2,1), (2,1) and (1,2) ports. |
| Ports.PortFrame | Puter/ZoomingCanvasView.swift:103-126 | A port frame is an 18 × 18 square. An input sits 4 from the left edge and an output ends 4 from the right edge. Port i of k is centred at height/(k+1)·(i+1). |
| Ports.PortCentreInside | Puter/ZoomingCanvasView.swift:106-108 | For a positive height, every one of the k ports on a side is centred strictly between 0 and the height. |
| Ports.PortsEvenlySpaced | Puter/ZoomingCanvasView.swift:106-108 | Neighbouring ports on a side are exactly one gap, height/(k+1), apart. |
| Ports.PortsSymmetric | Puter/ZoomingCanvasView.swift:106-108 | Port i and port k-1-i are mirror images about the middle of the side. |
| Ports.CreatePorts | Puter/ZoomingCanvasView.swift:101-140 | The result has max(inputs,0) + max(outputs,0) ports. Inputs come first, indexed 0..n-1, followed by outputs indexed 0..m-1, each in its layout frame. All ports belong to the module and are pairwise distinct. A port is an input exactly when it comes before position `inputs`. With a positive height, every port is centred strictly inside it. |
| Ports.PortsForModule | Puter/ZoomingCanvasView.swift:96-98 | Placing a module gives it exactly the ports `createPorts` lays out for ioCounts' numbers in the 160 × 160 container: inputs first, each port with its own index and frame, all pairwise distinct and centred strictly inside the container. |
| Canvas.CreateConnection | Puter/ZoomingCanvasView.swift:254-265 | Creating a connection appends exactly one wire with the given ends, routed for the current anchors. Earlier wires are unchanged. |
| Canvas.PortTapped | Puter/ZoomingCanvasView.swift:203-241 | A tap adds a wire exactly when a port of the other kind on another module was selected. Otherwise the wires are unchanged, and any added wire goes at the end. The tap keeps "exactly the selected port is highlighted" and "every wire runs output to input across modules". |
| Canvas.TapWhenIdle | Puter/ZoomingCanvasView.swift:237-240 | With nothing selected, a tap selects the port and adds it to the highlighted set, leaving other highlights alone, and creates no wire. |
| Canvas.TapSelectedAgain | Puter/ZoomingCanvasView.swift:205-208 | Tapping the selected port clears the selection and removes exactly its highlight. The wires are unchanged. |
| Canvas.TapSameKind | Puter/ZoomingCanvasView.swift:210-214 | Tapping another port of the same kind moves the selection and highlight to it and creates no wire. |
| Canvas.TapCompletesConnection | Puter/ZoomingCanvasView.swift:216-236 | Tapping an opposite-kind port on another module appends exactly one wire, with the output as `from` and the input as `to`. It then clears the selection and removes exactly the selected port's highlight. |
| Canvas.TapSameModuleRejected | Puter/ZoomingCanvasView.swift:229-233 | Tapping an opposite-kind port on the same module creates no wire, clears the selection and removes exactly the selected port's highlight. |
| Canvas.SelfLoopRejected | Puter/ZoomingCanvasView.swift:229-233 | On an empty canvas, tapping an output and then an input of the same module returns to the empty canvas. |
| Canvas.SameKindReArms | Puter/ZoomingCanvasView.swift:210-214 | On an empty canvas, tapping two different outputs leaves the second one selected and highlighted, with no wires. |
| Canvas.TapsKeepInvariants | Puter/ZoomingCanvasView.swift:203-245 | After any sequence of taps on an empty canvas, exactly the selected port is highlighted. Every wire runs from an output to an input of another module. |
| Canvas.UpdateConnections | Puter/ZoomingCanvasView.swift:295-301 | After a drag of module m, the wires touching m are re-routed for the new anchors. Every other wire is left exactly as it was. No wire changes its ends. |
| Canvas.RedrawAllConnections | Puter/ZoomingCanvasView.swift:303-307 | After a pan or zoom, every wire is re-routed for the current anchors without changing its ends. |
| Canvas.DragRerouteSuffices | Puter/ZoomingCanvasView.swift:286-301 | Suppose every wire was up to date and only the dragged module's ports moved. Then re-routing just its wires gives the same result as re-routing all wires. |
| Canvas.RerouteIdempotent | Puter/ZoomingCanvasView.swift:267-276 | Re-routing twice with the same anchors gives the same result as re-routing once, both after a drag and after a pan or zoom. |
| Canvas.RerouteKeepsWellFormed | Puter/ZoomingCanvasView.swift:295-307 | Re-routing keeps every wire running from an output to an input of another module. |

## Left out

- Scroll-view setup, zoom limits, `centerWorld`, `visibleCenterInContent`, hosting-controller tiles, gesture recognizers and the port's weak back-reference to the canvas: these are UIKit plumbing with no routing or bookkeeping logic.
- `placeModule` beyond its port creation (`Ports.PortsForModule`): the container view, pan recognizer and `modules`/`moduleViews` bookkeeping are view-hierarchy state.
- `portCenterInContent`: it is `UIView.convert`. Port anchors are the parameter `anchor`.
- `frameAllModules`: it depends on `CGRect.union`/`intersection` and an animated zoom.
- `updateModulePosition` and the drag translation: these move views. The model takes the anchors after the move as input.
- `GridTiledView` drawing and all `CAShapeLayer`/`UIBezierPath` styling: these are rendering.
- The weak `from`/`to` references of a connection and the `guard` in `updateConnectionPath`: ports are modelled as always alive, so every connection is re-routed when asked.
- The final `else` of the kind test in `portTapped` (ZoomingCanvasView.swift:224-228): there are only two kinds, so when the kinds differ one port is the output and the other the input. The branch cannot be reached and is not modelled.
- Ports.Lowercase: folds only ASCII `A`-`Z`, where Swift's `lowercased()` is full Unicode. The three names it is compared with are ASCII.
- CGFloat rounding and Swift `Int` overflow: coordinates are `real` and port indices are unbounded naturals. The indices are below 3 in practice.
- `Item.swift`: a storage template holding only a timestamp.
