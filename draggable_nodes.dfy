/** Drag-and-drop of network-graph nodes.

    A node being dragged follows the pointer relative to the position it had
    when the mouse went down; moves inside a small dead zone are ignored,
    moves that would leave the plot area are refused, and every accepted
    move nudges the force layout. The module has two layers:

    - a value layer (NodeState, Effect, MouseDown, MouseMove, MouseUp and
      the drag-session fold) that states what each handler does, with the
      lemmas about whole drag sessions;
    - an object layer (Point, Layout, Chart, Series) in which the three
      handlers update a point in place and issue calls on the layout, each
      proved against the value layer.
 */
module DragNodes {

  datatype Option<T> = None | Some(value: T)

  /** The drag-start snapshot `fixedPosition`: the pointer position in chart
      coordinates and the node's plot position when the mouse went down. */
  datatype Snapshot = Snapshot(chartX: real, chartY: real, plotX: real, plotY: real)

  /** The four fields of a point that the drag controller reads and writes. */
  datatype NodeState = NodeState(
    plotX: real,
    plotY: real,
    fixedPosition: Option<Snapshot>,
    inDragMode: bool)

  /** A call the drag controller makes on the series' layout engine. */
  datatype LayoutCall =
    | SetMaxIterations(n: int)
    | SetInitialRendering(enabled: bool)
    | Run
    | ResetSimulation

  /** What one handler does: the node's new state, the layout calls it made
      (in order) and whether it asked for the hover halo to be redrawn. */
  datatype Effect = Effect(node: NodeState, calls: seq<LayoutCall>, haloRedrawn: bool)

  /** A pointer position in chart coordinates, already normalised. */
  type Pointer = (real, real)

  /** Moves of at most this many pixels on both axes are not a drag. */
  const DeadZone: real := 5.0

  function Abs(x: real): real {
    if x < 0.0 then -x else x
  }

  /** The pointer's displacement, measured from the current pointer back to
      the drag-start pointer. */
  function Displacement(snap: Snapshot, chartX: real, chartY: real): (real, real) {
    (snap.chartX - chartX, snap.chartY - chartY)
  }

  predicate BeyondDeadZone(diffX: real, diffY: real) {
    Abs(diffX) > DeadZone || Abs(diffY) > DeadZone
  }

  /** The position a move proposes: the drag-start plot position minus the
      displacement. The node moves by exactly as much as the pointer has
      moved since the mouse went down. */
  function Candidate(snap: Snapshot, chartX: real, chartY: real): (r: (real, real))
    ensures r.0 - snap.plotX == chartX - snap.chartX
    ensures r.1 - snap.plotY == chartY - snap.chartY
  {
    var d := Displacement(snap, chartX, chartY);
    (snap.plotX - d.0, snap.plotY - d.1)
  }

  /** A move to (chartX, chartY) is committed when the node has a snapshot,
      is in drag mode, the pointer has left the dead zone, and the candidate
      position lies inside the plot. */
  predicate Commits(s: NodeState, chartX: real, chartY: real, insidePlot: (real, real) -> bool) {
    && s.fixedPosition.Some?
    && s.inDragMode
    && (var d := Displacement(s.fixedPosition.value, chartX, chartY);
        BeyondDeadZone(d.0, d.1))
    && (var c := Candidate(s.fixedPosition.value, chartX, chartY);
        insidePlot(c.0, c.1))
  }

  /** The layout calls a committed move makes: with no simulation running, a
      fresh run limited to one iteration unless continuous simulation is
      enabled, with initial rendering switched off around it; with a
      simulation running, one reset of that simulation. */
  function NudgeCalls(running: bool, enableSimulation: bool): seq<LayoutCall> {
    if !running then
      (if enableSimulation then [] else [SetMaxIterations(1)])
      + [SetInitialRendering(false), Run, SetInitialRendering(true)]
    else
      [ResetSimulation]
  }

  /** The initial-rendering setting of the layout after `calls`, when it was
      `start` before them: the argument of the last setInitialRendering
      call, or `start` when there is none. */
  function InitialRenderingAfter(calls: seq<LayoutCall>, start: bool): bool
    decreases |calls|
  {
    if calls == [] then start
    else match calls[|calls| - 1]
      case SetInitialRendering(enabled) => enabled
      case _ => InitialRenderingAfter(calls[..|calls| - 1], start)
  }

  /** onMouseDown: snapshot the pointer and the node's position, enter drag
      mode. An earlier (pinned) snapshot is overwritten. */
  function MouseDown(s: NodeState, chartX: real, chartY: real): (r: Effect)
    ensures r.node.inDragMode
    ensures r.node.fixedPosition == Some(Snapshot(chartX, chartY, s.plotX, s.plotY))
    ensures r.node.plotX == s.plotX && r.node.plotY == s.plotY
    ensures r.calls == [] && !r.haloRedrawn
  {
    Effect(NodeState(s.plotX, s.plotY, Some(Snapshot(chartX, chartY, s.plotX, s.plotY)), true), [], false)
  }

  /** onMouseMove: a guarded position update followed by a layout nudge.
      It never changes the snapshot or the drag flag; when the move is not
      committed it changes nothing and calls nothing. */
  function MouseMove(
    s: NodeState, chartX: real, chartY: real,
    insidePlot: (real, real) -> bool, running: bool, enableSimulation: bool): (r: Effect)
    ensures r.node.fixedPosition == s.fixedPosition && r.node.inDragMode == s.inDragMode
    ensures !Commits(s, chartX, chartY, insidePlot) ==> r == Effect(s, [], false)
    ensures Commits(s, chartX, chartY, insidePlot) ==>
      var snap := s.fixedPosition.value;
      && insidePlot(r.node.plotX, r.node.plotY)
      && r.node.plotX - snap.plotX == chartX - snap.chartX
      && r.node.plotY - snap.plotY == chartY - snap.chartY
      && r.haloRedrawn
      && r.calls == NudgeCalls(running, enableSimulation)
  {
    if s.fixedPosition.Some? && s.inDragMode then
      var snap := s.fixedPosition.value;
      var d := Displacement(snap, chartX, chartY);
      if BeyondDeadZone(d.0, d.1) then
        var c := Candidate(snap, chartX, chartY);
        if insidePlot(c.0, c.1) then
          Effect(s.(plotX := c.0, plotY := c.1), NudgeCalls(running, enableSimulation), true)
        else
          Effect(s, [], false)
      else
        Effect(s, [], false)
    else
      Effect(s, [], false)
  }

  /** onMouseUp: with a snapshot, run the layout once, leave drag mode and
      drop the snapshot unless the series pins dragged nodes; without one,
      nothing. */
  function MouseUp(s: NodeState, fixedDraggable: bool): (r: Effect)
    ensures s.fixedPosition.None? ==> r == Effect(s, [], false)
    ensures s.fixedPosition.Some? ==>
      && r.calls == [Run]
      && !r.node.inDragMode
      && !r.haloRedrawn
      && r.node.plotX == s.plotX && r.node.plotY == s.plotY
      && (r.node.fixedPosition.None? <==> !fixedDraggable)
      && (fixedDraggable ==> r.node.fixedPosition == s.fixedPosition)
  {
    if s.fixedPosition.Some? then
      var kept := if fixedDraggable then s.fixedPosition else None;
      Effect(NodeState(s.plotX, s.plotY, kept, false), [Run], false)
    else
      Effect(s, [], false)
  }

  // ---------------------------------------------------------------------
  // Lemmas about single handler calls

  /** The dead zone is inclusive: a pointer at most 5 pixels from the
      drag-start pointer on both axes moves nothing and calls nothing. */
  lemma DeadZoneIgnored(
    s: NodeState, chartX: real, chartY: real,
    insidePlot: (real, real) -> bool, running: bool, enableSimulation: bool)
    requires s.fixedPosition.Some?
    requires Abs(s.fixedPosition.value.chartX - chartX) <= DeadZone
    requires Abs(s.fixedPosition.value.chartY - chartY) <= DeadZone
    ensures MouseMove(s, chartX, chartY, insidePlot, running, enableSimulation) == Effect(s, [], false)
  {
  }

  /** A candidate outside the plot is refused whatever the displacement. */
  lemma OutsidePlotRefused(
    s: NodeState, chartX: real, chartY: real,
    insidePlot: (real, real) -> bool, running: bool, enableSimulation: bool)
    requires s.fixedPosition.Some?
    requires !insidePlot(Candidate(s.fixedPosition.value, chartX, chartY).0,
                         Candidate(s.fixedPosition.value, chartX, chartY).1)
    ensures MouseMove(s, chartX, chartY, insidePlot, running, enableSimulation) == Effect(s, [], false)
  {
  }

  /** What a committed move asks of the layout: exactly one run and no reset
      when no simulation is running, exactly one reset and no run when one
      is; a single-iteration limit only for a fresh run without continuous
      simulation; and initial rendering is left as it was, or re-enabled. */
  lemma NudgeCallsEffect(running: bool, enableSimulation: bool, start: bool)
    ensures var calls := NudgeCalls(running, enableSimulation);
      && multiset(calls)[Run] == (if running then 0 else 1)
      && multiset(calls)[ResetSimulation] == (if running then 1 else 0)
      && (SetMaxIterations(1) in calls <==> !running && !enableSimulation)
      && InitialRenderingAfter(calls, start) == (if running then start else true)
  {
  }

  /** A pinned node after mouseup is not in drag mode, so further moves do
      nothing until the next mousedown. */
  lemma PinnedNodeIgnoresMoves(
    s: NodeState, chartX: real, chartY: real,
    insidePlot: (real, real) -> bool, running: bool, enableSimulation: bool)
    requires s.fixedPosition.Some?
    ensures var up := MouseUp(s, true);
      && up.node.fixedPosition == s.fixedPosition
      && MouseMove(up.node, chartX, chartY, insidePlot, running, enableSimulation) == Effect(up.node, [], false)
  {
  }

  /** onMouseUp tests only for a snapshot, not for drag mode: a pinned node
      that is no longer being dragged still makes the layout run once. */
  lemma PinnedMouseUpStillRuns(s: NodeState)
    requires s.fixedPosition.Some? && !s.inDragMode
    ensures MouseUp(s, true).node == s
    ensures MouseUp(s, true).calls == [Run]
  {
  }

  // ---------------------------------------------------------------------
  // A sequence of moves within one drag

  /** The effect of handling the moves `pointers` in order, starting from `s`. */
  function Moves(
    s: NodeState, pointers: seq<Pointer>,
    insidePlot: (real, real) -> bool, running: bool, enableSimulation: bool): Effect
    decreases |pointers|
  {
    if pointers == [] then Effect(s, [], false)
    else
      var before := Moves(s, pointers[..|pointers| - 1], insidePlot, running, enableSimulation);
      var p := pointers[|pointers| - 1];
      var step := MouseMove(before.node, p.0, p.1, insidePlot, running, enableSimulation);
      Effect(step.node, before.calls + step.calls, before.haloRedrawn || step.haloRedrawn)
  }

  /** Reference definition of where a drag leaves the node: at the candidate
      of the last pointer that commits against the starting state, or where
      it started when none does. */
  function DraggedTo(s: NodeState, pointers: seq<Pointer>, insidePlot: (real, real) -> bool): (real, real)
    decreases |pointers|
  {
    if pointers == [] then (s.plotX, s.plotY)
    else
      var p := pointers[|pointers| - 1];
      if Commits(s, p.0, p.1, insidePlot) then Candidate(s.fixedPosition.value, p.0, p.1)
      else DraggedTo(s, pointers[..|pointers| - 1], insidePlot)
  }

  /** The number of pointers in `pointers` that commit against `s`. */
  function CommitCount(s: NodeState, pointers: seq<Pointer>, insidePlot: (real, real) -> bool): nat
    decreases |pointers|
  {
    if pointers == [] then 0
    else
      var p := pointers[|pointers| - 1];
      CommitCount(s, pointers[..|pointers| - 1], insidePlot)
      + (if Commits(s, p.0, p.1, insidePlot) then 1 else 0)
  }

  /** Because onMouseMove never touches the snapshot or the drag flag, a run
      of moves keeps both and leaves the node where the last pointer that
      commits put it. */
  lemma {:induction false} MovesFollowLastCommit(
    s: NodeState, pointers: seq<Pointer>,
    insidePlot: (real, real) -> bool, running: bool, enableSimulation: bool)
    ensures var at := DraggedTo(s, pointers, insidePlot);
      Moves(s, pointers, insidePlot, running, enableSimulation).node == s.(plotX := at.0, plotY := at.1)
    decreases |pointers|
  {
    if pointers != [] {
      var prefix := pointers[..|pointers| - 1];
      MovesFollowLastCommit(s, prefix, insidePlot, running, enableSimulation);
      var before := Moves(s, prefix, insidePlot, running, enableSimulation);
      var p := pointers[|pointers| - 1];
      assert Commits(before.node, p.0, p.1, insidePlot) == Commits(s, p.0, p.1, insidePlot);
    }
  }

  /** A run of moves asks the layout for one nudge per committed pointer:
      that many runs and no reset when no simulation is running, that many
      resets and no run when one is, no call at all when nothing commits;
      and initial rendering ends up enabled. */
  lemma {:induction false} MovesLayoutCalls(
    s: NodeState, pointers: seq<Pointer>,
    insidePlot: (real, real) -> bool, running: bool, enableSimulation: bool)
    ensures var r := Moves(s, pointers, insidePlot, running, enableSimulation);
      var n := CommitCount(s, pointers, insidePlot);
      && multiset(r.calls)[Run] == (if running then 0 else n)
      && multiset(r.calls)[ResetSimulation] == (if running then n else 0)
      && (r.calls == [] <==> n == 0)
      && InitialRenderingAfter(r.calls, true)
    decreases |pointers|
  {
    if pointers != [] {
      var prefix := pointers[..|pointers| - 1];
      MovesLayoutCalls(s, prefix, insidePlot, running, enableSimulation);
      MovesFollowLastCommit(s, prefix, insidePlot, running, enableSimulation);
      var before := Moves(s, prefix, insidePlot, running, enableSimulation);
      var p := pointers[|pointers| - 1];
      assert Commits(before.node, p.0, p.1, insidePlot) == Commits(s, p.0, p.1, insidePlot);
      var step := MouseMove(before.node, p.0, p.1, insidePlot, running, enableSimulation);
      var r := Moves(s, pointers, insidePlot, running, enableSimulation);
      assert r.calls == before.calls + step.calls;
      if Commits(s, p.0, p.1, insidePlot) {
        assert step.calls == NudgeCalls(running, enableSimulation);
        AppendNudge(before.calls, CommitCount(s, prefix, insidePlot), running, enableSimulation);
      } else {
        assert step.calls == [];
        assert r.calls == before.calls;
      }
    }
  }

  /** One more nudge appended to a log of k nudges gives a log of k + 1. */
  lemma AppendNudge(calls: seq<LayoutCall>, k: nat, running: bool, enableSimulation: bool)
    requires multiset(calls)[Run] == (if running then 0 else k)
    requires multiset(calls)[ResetSimulation] == (if running then k else 0)
    requires InitialRenderingAfter(calls, true)
    ensures var r := calls + NudgeCalls(running, enableSimulation);
      && multiset(r)[Run] == (if running then 0 else k + 1)
      && multiset(r)[ResetSimulation] == (if running then k + 1 else 0)
      && r != []
      && InitialRenderingAfter(r, true)
  {
  }

  /** Handling `a` and then `b` leaves initial rendering where handling `b`
      from the setting `a` left leaves it. */
  lemma {:induction false} InitialRenderingAfterConcat(a: seq<LayoutCall>, b: seq<LayoutCall>, start: bool)
    ensures InitialRenderingAfter(a + b, start) == InitialRenderingAfter(b, InitialRenderingAfter(a, start))
    decreases |b|
  {
    if b != [] {
      assert (a + b)[..|a + b| - 1] == a + b[..|b| - 1];
      InitialRenderingAfterConcat(a, b[..|b| - 1], start);
    } else {
      assert a + b == a;
    }
  }

  /** The position after a committed move depends only on the snapshot and
      that pointer, not on any earlier move of the drag. */
  lemma PathIndependence(
    s: NodeState, earlier1: seq<Pointer>, earlier2: seq<Pointer>, p: Pointer,
    insidePlot: (real, real) -> bool, running: bool, enableSimulation: bool)
    requires Commits(s, p.0, p.1, insidePlot)
    ensures Moves(s, earlier1 + [p], insidePlot, running, enableSimulation).node
         == Moves(s, earlier2 + [p], insidePlot, running, enableSimulation).node
    ensures Moves(s, earlier1 + [p], insidePlot, running, enableSimulation).node.plotX
         == s.fixedPosition.value.plotX - (s.fixedPosition.value.chartX - p.0)
    ensures Moves(s, earlier1 + [p], insidePlot, running, enableSimulation).node.plotY
         == s.fixedPosition.value.plotY - (s.fixedPosition.value.chartY - p.1)
  {
    MovesFollowLastCommit(s, earlier1 + [p], insidePlot, running, enableSimulation);
    MovesFollowLastCommit(s, earlier2 + [p], insidePlot, running, enableSimulation);
  }

  /** When no pointer commits, the node stays where it started. */
  lemma {:induction false} NoCommitStaysPut(s: NodeState, pointers: seq<Pointer>, insidePlot: (real, real) -> bool)
    requires forall i :: 0 <= i < |pointers| ==> !Commits(s, pointers[i].0, pointers[i].1, insidePlot)
    ensures DraggedTo(s, pointers, insidePlot) == (s.plotX, s.plotY)
    ensures CommitCount(s, pointers, insidePlot) == 0
    decreases |pointers|
  {
    if pointers != [] {
      NoCommitStaysPut(s, pointers[..|pointers| - 1], insidePlot);
    }
  }

  // ---------------------------------------------------------------------
  // A whole drag session: mousedown, moves, mouseup

  function DragSession(
    s: NodeState, downX: real, downY: real, pointers: seq<Pointer>,
    insidePlot: (real, real) -> bool, running: bool, enableSimulation: bool,
    fixedDraggable: bool): Effect
  {
    var down := MouseDown(s, downX, downY);
    var moved := Moves(down.node, pointers, insidePlot, running, enableSimulation);
    var up := MouseUp(moved.node, fixedDraggable);
    Effect(up.node, moved.calls + up.calls, moved.haloRedrawn)
  }

  /** After mousedown, any number of moves and mouseup: the node is out of
      drag mode; it keeps the drag-start snapshot exactly when the series
      pins dragged nodes; it sits where the last committed move put it; the
      layout ran once per committed move (or was reset once per committed
      move, if a simulation was running) plus once at mouseup, last; and
      initial rendering is enabled at the end. */
  lemma DragSessionOutcome(
    s: NodeState, downX: real, downY: real, pointers: seq<Pointer>,
    insidePlot: (real, real) -> bool, running: bool, enableSimulation: bool,
    fixedDraggable: bool)
    ensures var r := DragSession(s, downX, downY, pointers, insidePlot, running, enableSimulation, fixedDraggable);
      var dragging := MouseDown(s, downX, downY).node;
      var n := CommitCount(dragging, pointers, insidePlot);
      && !r.node.inDragMode
      && r.node.fixedPosition == (if fixedDraggable then Some(Snapshot(downX, downY, s.plotX, s.plotY)) else None)
      && (r.node.plotX, r.node.plotY) == DraggedTo(dragging, pointers, insidePlot)
      && multiset(r.calls)[Run] == (if running then 0 else n) + 1
      && multiset(r.calls)[ResetSimulation] == (if running then n else 0)
      && r.calls[|r.calls| - 1] == Run
      && InitialRenderingAfter(r.calls, true)
  {
    var dragging := MouseDown(s, downX, downY).node;
    var moved := Moves(dragging, pointers, insidePlot, running, enableSimulation);
    MovesFollowLastCommit(dragging, pointers, insidePlot, running, enableSimulation);
    MovesLayoutCalls(dragging, pointers, insidePlot, running, enableSimulation);
    InitialRenderingAfterConcat(moved.calls, [Run], true);
  }

  /** A click, or a drag that never leaves the dead zone of the mousedown
      pointer, leaves the node where it was. */
  lemma ClickDoesNotMove(
    s: NodeState, downX: real, downY: real, pointers: seq<Pointer>,
    insidePlot: (real, real) -> bool, running: bool, enableSimulation: bool,
    fixedDraggable: bool)
    requires forall i :: 0 <= i < |pointers| ==>
      Abs(downX - pointers[i].0) <= DeadZone && Abs(downY - pointers[i].1) <= DeadZone
    ensures var r := DragSession(s, downX, downY, pointers, insidePlot, running, enableSimulation, fixedDraggable);
      r.node.plotX == s.plotX && r.node.plotY == s.plotY && r.calls == [Run]
  {
    var dragging := MouseDown(s, downX, downY).node;
    NoCommitStaysPut(dragging, pointers, insidePlot);
    MovesLayoutCalls(dragging, pointers, insidePlot, running, enableSimulation);
    DragSessionOutcome(s, downX, downY, pointers, insidePlot, running, enableSimulation, fixedDraggable);
  }

  // ---------------------------------------------------------------------
  // The object layer

  /** A graph node: the point whose fields the handlers update in place. */
  class Point {
    var plotX: real
    var plotY: real
    var fixedPosition: Option<Snapshot>
    var inDragMode: bool

    constructor (plotX: real, plotY: real)
      ensures State() == NodeState(plotX, plotY, None, false)
    {
      this.plotX := plotX;
      this.plotY := plotY;
      fixedPosition := None;
      inDragMode := false;
    }

    function State(): NodeState
      reads this
    {
      NodeState(plotX, plotY, fixedPosition, inDragMode)
    }
  }

  /** The series' layout engine, seen from the drag controller: whether a
      simulation is running, whether continuous simulation is enabled, and
      the calls made on it so far. */
  class Layout {
    var simulation: bool
    const enableSimulation: bool
    ghost var calls: seq<LayoutCall>

    constructor (simulation: bool, enableSimulation: bool)
      ensures this.simulation == simulation && this.enableSimulation == enableSimulation
      ensures calls == []
    {
      this.simulation := simulation;
      this.enableSimulation := enableSimulation;
      calls := [];
    }

    method SetMaxIterations(n: int)
      modifies this`calls
      ensures calls == old(calls) + [LayoutCall.SetMaxIterations(n)]
    {
      calls := calls + [LayoutCall.SetMaxIterations(n)];
    }

    method SetInitialRendering(enabled: bool)
      modifies this`calls
      ensures calls == old(calls) + [LayoutCall.SetInitialRendering(enabled)]
    {
      calls := calls + [LayoutCall.SetInitialRendering(enabled)];
    }

    method Run()
      modifies this`calls
      ensures calls == old(calls) + [LayoutCall.Run]
    {
      calls := calls + [LayoutCall.Run];
    }

    method ResetSimulation()
      modifies this`calls
      ensures calls == old(calls) + [LayoutCall.ResetSimulation]
    {
      calls := calls + [LayoutCall.ResetSimulation];
    }
  }

  /** The chart, reduced to its plot-bounds test. */
  class Chart {
    const isInsidePlot: (real, real) -> bool

    constructor (isInsidePlot: (real, real) -> bool)
      ensures this.isInsidePlot == isInsidePlot
    {
      this.isInsidePlot := isInsidePlot;
    }
  }

  /** A network-graph series with draggable nodes. */
  class Series {
    const chart: Chart
    const layout: Layout
    /** The series option `fixedDraggable`: keep the snapshot after mouseup. */
    const fixedDraggable: bool
    /** Whether the series currently shows a hover halo. */
    const halo: bool
    /** How many times the halo has been redrawn. */
    ghost var haloRedraws: nat

    constructor (chart: Chart, layout: Layout, fixedDraggable: bool, halo: bool)
      ensures this.chart == chart && this.layout == layout
      ensures this.fixedDraggable == fixedDraggable && this.halo == halo
      ensures haloRedraws == 0
    {
      this.chart := chart;
      this.layout := layout;
      this.fixedDraggable := fixedDraggable;
      this.halo := halo;
      haloRedraws := 0;
    }

    /** onMouseDown, with the normalised pointer position as arguments. */
    method OnMouseDown(point: Point, chartX: real, chartY: real)
      modifies point
      ensures point.State() == MouseDown(old(point.State()), chartX, chartY).node
      ensures point.inDragMode
      ensures point.fixedPosition == Some(Snapshot(chartX, chartY, old(point.plotX), old(point.plotY)))
    {
      point.fixedPosition := Some(Snapshot(chartX, chartY, point.plotX, point.plotY));
      point.inDragMode := true;
    }

    /** onMouseMove, with the normalised pointer position as arguments. */
    method OnMouseMove(point: Point, chartX: real, chartY: real)
      modifies point, layout`calls, this`haloRedraws
      ensures var e := MouseMove(old(point.State()), chartX, chartY, chart.isInsidePlot,
                                 layout.simulation, layout.enableSimulation);
        && point.State() == e.node
        && layout.calls == old(layout.calls) + e.calls
        && haloRedraws == old(haloRedraws) + (if e.haloRedrawn && halo then 1 else 0)
      ensures point.fixedPosition == old(point.fixedPosition)
      ensures point.inDragMode == old(point.inDragMode)
    {
      if point.fixedPosition.Some? && point.inDragMode {
        var diffX := point.fixedPosition.value.chartX - chartX;
        var diffY := point.fixedPosition.value.chartY - chartY;
        if Abs(diffX) > DeadZone || Abs(diffY) > DeadZone {
          var newPlotX := point.fixedPosition.value.plotX - diffX;
          var newPlotY := point.fixedPosition.value.plotY - diffY;
          if chart.isInsidePlot(newPlotX, newPlotY) {
            point.plotX := newPlotX;
            point.plotY := newPlotY;
            RedrawHalo(point);
            if !layout.simulation {
              if !layout.enableSimulation {
                layout.SetMaxIterations(1);
              }
              layout.SetInitialRendering(false);
              layout.Run();
              layout.SetInitialRendering(true);
            } else {
              layout.ResetSimulation();
            }
          }
        }
      }
    }

    /** onMouseUp. */
    method OnMouseUp(point: Point)
      modifies point, layout`calls
      ensures var e := MouseUp(old(point.State()), fixedDraggable);
        point.State() == e.node && layout.calls == old(layout.calls) + e.calls
    {
      if point.fixedPosition.Some? {
        layout.Run();
        point.inDragMode := false;
        if !fixedDraggable {
          point.fixedPosition := None;
        }
      }
    }

    /** redrawHalo: the halo, when there is one, is redrawn around the point. */
    method RedrawHalo(point: Point?)
      modifies this`haloRedraws
      ensures haloRedraws == old(haloRedraws) + (if point != null && halo then 1 else 0)
    {
      if point != null && halo {
        haloRedraws := haloRedraws + 1;
      }
    }
  }
}
