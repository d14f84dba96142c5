# Draggable network-graph nodes

A Dafny model of the drag-and-drop controller for network-graph nodes
(`dragNodesMixin` in `js/modules/networkgraph/draggable-nodes.js`). Three
handlers are mixed into a network-graph series:

- `onMouseDown` takes a snapshot (`fixedPosition`) of the pointer and of the
  node's plot position, and puts the node in drag mode.
- `onMouseMove` moves the node relative to that snapshot. It ignores moves
  inside a 5-pixel dead zone and refuses positions outside the plot. Every
  accepted move nudges the force layout: a fresh single run when no
  simulation is running, or a reset of the running simulation.
- `onMouseUp` runs the layout once, leaves drag mode, and drops the
  snapshot unless the series option `fixedDraggable` pins the node.

Everything is in one module, `DragNodes`, in `draggable_nodes.dfy`, in two layers:

- **Value layer.** `NodeState` holds the point's four fields (`plotX`,
  `plotY`, `fixedPosition`, `inDragMode`). `MouseDown`, `MouseMove` and
  `MouseUp` give each handler's `Effect`: the new node state, the layout
  calls made in order, and whether the halo was asked to redraw. `Moves`
  and `DragSession` fold these over a whole gesture. `DraggedTo`,
  `CommitCount` and `InitialRenderingAfter` are independent reference
  definitions. The lemmas relate the folds to these definitions.
- **Object layer.** The classes are `Point`, `Layout`, `Chart` and `Series`.
  `Series.OnMouseDown`, `OnMouseMove` and `OnMouseUp` update the point in
  place. They call `Layout` methods in the source's order, and each method
  records its call in the ghost log `calls`. Each handler is proved to
  produce exactly the effect the value layer gives.

Pointer and plot coordinates are `real`. Event normalisation is outside the
model: handlers receive the normalised `chartX`/`chartY` as arguments. The
plot-bounds test `chart.isInsidePlot` is a function-valued field of `Chart`,
so every result holds for any bounds test.

`onMouseUp` tests only for a snapshot (`draggable-nodes.js:78`), not for
drag mode. So a node pinned by `fixedDraggable` that is no longer being
dragged still makes the layout run once (`PinnedMouseUpStillRuns`).

## Model

| member | source | states |
|---|---|---|
| `DragNodes.Candidate` | js/modules/networkgraph/draggable-nodes.js:36-44 | the proposed position has moved from the drag-start plot position by exactly as much as the pointer has moved from the drag-start pointer, on each axis |
| `DragNodes.MouseDown` | js/modules/networkgraph/draggable-nodes.js:13-24 | after mousedown the node is in drag mode with snapshot (pointer chartX, chartY, current plotX, plotY), replacing any earlier snapshot; the position is unchanged; no layout call |
| `DragNodes.MouseMove` | js/modules/networkgraph/draggable-nodes.js:31-71 | a move never changes the snapshot or the drag flag; if the move does not commit (no snapshot, not dragging, inside the dead zone, or outside the plot), nothing changes and there is no layout call; if it commits, the new position is inside the plot and is offset from the snapshot by the pointer's offset, the halo is redrawn, and the nudge calls are issued |
| `DragNodes.MouseUp` | js/modules/networkgraph/draggable-nodes.js:77-85 | without a snapshot, nothing happens; with one, there is exactly one `run()`, drag mode ends, the position is kept, and the snapshot is removed if and only if `fixedDraggable` is false (otherwise it is kept unchanged) |
| `DragNodes.DeadZoneIgnored` | js/modules/networkgraph/draggable-nodes.js:36-42 | when both displacements are at most 5 (inclusive), a move changes nothing and calls nothing |
| `DragNodes.OutsidePlotRefused` | js/modules/networkgraph/draggable-nodes.js:43-68 | a candidate outside the plot leaves the node unchanged and calls nothing, whatever the displacement |
| `DragNodes.NudgeCallsEffect` | js/modules/networkgraph/draggable-nodes.js:52-67 | a committed move with no running simulation makes exactly one `run()` and no reset; with a running simulation it makes exactly one `resetSimulation()` and no run; `setMaxIterations(1)` is issued only for a fresh run without continuous simulation; initial rendering ends enabled after a fresh run and is untouched by a reset |
| `DragNodes.AppendNudge` | js/modules/networkgraph/draggable-nodes.js:52-67 | appending one nudge to a log of k nudges gives a log of k + 1 nudges that still ends with initial rendering enabled |
| `DragNodes.PinnedNodeIgnoresMoves` | js/modules/networkgraph/draggable-nodes.js:77-85 | after mouseup on a pinned node the snapshot is kept, but any later move changes nothing and calls nothing, because drag mode is off |
| `DragNodes.PinnedMouseUpStillRuns` | js/modules/networkgraph/draggable-nodes.js:77-85 | a second mouseup on a pinned node that is out of drag mode leaves it unchanged but still calls `run()` once |
| `DragNodes.MovesFollowLastCommit` | js/modules/networkgraph/draggable-nodes.js:31-48 | after any sequence of moves the snapshot and drag flag are as before, and the node is where the last committing pointer put it (the reference `DraggedTo`), or where it started if no pointer commits |
| `DragNodes.MovesLayoutCalls` | js/modules/networkgraph/draggable-nodes.js:52-67 | across any sequence of moves, with the simulation-running flag held fixed for the whole sequence (in the real engine, with `enableSimulation` on, the first `run()` starts a simulation and later moves reset it instead), the layout gets one `run()` per committed move (or one `resetSimulation()` per committed move while a simulation runs), no call at all if and only if nothing commits, and initial rendering ends enabled |
| `DragNodes.PathIndependence` | js/modules/networkgraph/draggable-nodes.js:36-48 | the node state after a committed move depends only on the snapshot and that pointer, not on any earlier move: plotX = snapshot plotX − diffX and plotY = snapshot plotY − diffY |
| `DragNodes.NoCommitStaysPut` | js/modules/networkgraph/draggable-nodes.js:41-46 | when no pointer commits, the reference position is the starting position and the commit count is zero |
| `DragNodes.DragSessionOutcome` | js/modules/networkgraph/draggable-nodes.js:13-85 | after mousedown, any moves and mouseup, with the simulation-running flag held fixed for the whole gesture (in the real engine, with `enableSimulation` on, the first `run()` starts a simulation and later moves reset it instead): drag mode is off; the snapshot is the mousedown snapshot if `fixedDraggable`, else absent; the node is where the last committed move put it; `run()` count = committed moves + 1 when no simulation runs, reset count = committed moves when one runs; the last call is `run()`; initial rendering is enabled |
| `DragNodes.ClickDoesNotMove` | js/modules/networkgraph/draggable-nodes.js:41-42 | a gesture whose pointer never leaves the 5-pixel dead zone of the mousedown pointer leaves the node where it was, and the layout gets only the mouseup `run()` |
| `DragNodes.Layout.SetMaxIterations` | js/modules/networkgraph/draggable-nodes.js:56 | the call `setMaxIterations(n)` is appended to the layout's call log |
| `DragNodes.Layout.SetInitialRendering` | js/modules/networkgraph/draggable-nodes.js:60-63 | the call `setInitialRendering(b)` is appended to the layout's call log |
| `DragNodes.Layout.Run` | js/modules/networkgraph/draggable-nodes.js:61 | the call `run()` is appended to the layout's call log |
| `DragNodes.Layout.ResetSimulation` | js/modules/networkgraph/draggable-nodes.js:66 | the call `resetSimulation()` is appended to the layout's call log |
| `DragNodes.Series.OnMouseDown` | js/modules/networkgraph/draggable-nodes.js:13-24 | updates the point in place to `MouseDown`'s state: drag mode on, snapshot of the pointer and the old plot position |
| `DragNodes.Series.OnMouseMove` | js/modules/networkgraph/draggable-nodes.js:31-71 | updates the point in place to `MouseMove`'s state and appends exactly `MouseMove`'s calls to the layout log; the halo redraw count goes up once exactly when a committed move finds a halo; the snapshot and drag flag are untouched |
| `DragNodes.Series.OnMouseUp` | js/modules/networkgraph/draggable-nodes.js:77-85 | updates the point in place to `MouseUp`'s state and appends exactly `MouseUp`'s calls to the layout log |
| `DragNodes.Series.RedrawHalo` | js/modules/networkgraph/draggable-nodes.js:92-100 | the halo is redrawn (counted) exactly when a point is given and the series has a halo |

## Left out

- The chart `'load'` handler (`draggable-nodes.js:105-156`). It installs and removes the mousedown, mousemove and mouseup listeners and the `'destroy'` hook. This is event plumbing, and the model takes the three handler calls as given.
- Pointer normalisation (`chart.pointer.normalize`). It belongs to the host chart engine; the normalised `chartX`/`chartY` are method arguments.
- The geometry behind `chart.isInsidePlot`. It is an arbitrary function `(real, real) -> bool`, fixed for the whole gesture: `Chart.isInsidePlot` is a `const`, and `Moves` and `DragSession` take one `insidePlot`. A plot that is resized during a drag is not modelled.
- Layout and force-simulation internals behind `run`, `resetSimulation`, `setMaxIterations` and `setInitialRendering`. Each call is only recorded. The model assumes these calls do not change the layout's `simulation` flag or any node position. In the real engine, `run()` may start a simulation and the force step may move nodes; neither is modelled. For the same reason, `DragSession` takes one `running` value for the whole gesture.
- The halo's SVG path (`haloPath`, halo size option). A redraw is only counted.
- IEEE floating-point rounding of coordinates. The model uses exact `real` arithmetic; the source only subtracts, takes absolute values and compares with 5.
