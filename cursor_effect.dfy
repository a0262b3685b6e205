/** `InteractiveGrid` (the cursor effect): a window-sized grid of 20 px cells.
    A mouse move requests one animation frame, and further moves are ignored
    until it runs; the frame flashes the cells around the cursor's cell,
    within a radius of 1 or 2, except the positions the noise draw skips.
    `Math.random` is supplied: the radius draw as a real in [0, 1), the
    skipped positions as a set. */
module CursorEffect {
  import opened Wrappers
  import opened Grid

  const CellSize: nat := 20

  /** `initGrid`: the grid covering the window and its row-major cells. */
  method InitGrid(width: nat, height: nat) returns (cols: nat, rows: nat, cells: seq<Cell>)
    ensures Dims(cols, rows) == GridDims(width, height, CellSize)
    ensures cells == RowMajor(rows, cols)
  {
    var d := GridDims(width, height, CellSize);
    cols, rows := d.cols, d.rows;
    cells := RowMajorCells(rows, cols);
  }

  /** `Math.floor(Math.random() * 2) + 1` for a draw in [0, 1). */
  function Radius(draw: real): (radius: nat)
    requires 0.0 <= draw < 1.0
    ensures radius == 1 || radius == 2
    ensures radius == 2 <==> draw >= 0.5
  {
    (draw * 2.0).Floor + 1
  }

  /** `Math.floor(clientX / cellSize)` on integer client coordinates. */
  function CursorCell(client: int): int
  {
    client / (CellSize as int)
  }

  /** The cells to flash: in the grid, within Chebyshev distance `radius` of
      the cursor's cell, and not skipped by the noise draw. */
  function Neighbourhood(col: int, row: int, radius: nat, cols: nat, rows: nat, skipped: set<(int, int)>): set<int>
  {
    set x: int, y: int | row - radius <= y <= row + radius && col - radius <= x <= col + radius &&
      0 <= x < cols && 0 <= y < rows && (x, y) !in skipped :: y * cols + x
  }

  function Abs(x: int): nat
  {
    if x < 0 then -x else x
  }

  /** Every selected index is a cell of the grid near the cursor. */
  lemma SelectionInGrid(col: int, row: int, radius: nat, cols: nat, rows: nat, skipped: set<(int, int)>, i: int)
    requires i in Neighbourhood(col, row, radius, cols, rows, skipped)
    ensures 0 <= i < rows * cols && cols > 0
    ensures Abs(ColOf(i, cols) - col) <= radius && Abs(RowOf(i, cols) - row) <= radius
    ensures (ColOf(i, cols), RowOf(i, cols)) !in skipped
  {
    var x: int, y: int :| row - radius <= y <= row + radius && col - radius <= x <= col + radius &&
      0 <= x < cols && 0 <= y < rows && (x, y) !in skipped && i == y * cols + x;
    IdInRange(y, x, rows, cols);
    PositionOfId(y, x, cols);
  }

  /** Every in-grid, unskipped position near the cursor is selected. */
  lemma NearbySelected(col: int, row: int, radius: nat, cols: nat, rows: nat, skipped: set<(int, int)>, x: nat, y: nat)
    requires x < cols && y < rows && Abs(x - col) <= radius && Abs(y - row) <= radius && (x, y) !in skipped
    ensures Id(y, x, cols) in Neighbourhood(col, row, radius, cols, rows, skipped)
  {
    assert y * cols + x in Neighbourhood(col, row, radius, cols, rows, skipped);
  }

  /** The nested loop of the frame callback, adding to `cellsToUpdate`. */
  method SelectCells(col: int, row: int, radius: nat, cols: nat, rows: nat, skipped: set<(int, int)>)
    returns (selected: set<int>)
    ensures selected == Neighbourhood(col, row, radius, cols, rows, skipped)
  {
    selected := {};
    var y := row - radius;
    while y <= row + radius
      invariant row - radius <= y <= row + radius + 1
      invariant selected == set x: int, y': int | row - radius <= y' < y && col - radius <= x <= col + radius &&
        0 <= x < cols && 0 <= y' < rows && (x, y') !in skipped :: y' * cols + x
    {
      var x := col - radius;
      while x <= col + radius
        invariant col - radius <= x <= col + radius + 1
        invariant selected == (set x': int, y': int | row - radius <= y' < y && col - radius <= x' <= col + radius &&
          0 <= x' < cols && 0 <= y' < rows && (x', y') !in skipped :: y' * cols + x') +
          (set x': int | col - radius <= x' < x && 0 <= x' < cols && 0 <= y < rows && (x', y) !in skipped :: y * cols + x')
      {
        if 0 <= x < cols && 0 <= y < rows {
          if (x, y) !in skipped {
            selected := selected + {y * cols + x};
          }
        }
        x := x + 1;
      }
      y := y + 1;
    }
  }

  datatype MousePosition = MousePosition(clientX: int, clientY: int)

  datatype CursorState = CursorState(
    cols: nat,
    rows: nat,
    cells: seq<Cell>,
    listening: bool,            // the mousemove and resize listeners are attached
    pending: Option<MousePosition>,   // the move whose frame is requested
    flashed: seq<set<int>>)     // the cells flashed by each frame so far

  function OnInit(width: nat, height: nat): CursorState
  {
    var d := GridDims(width, height, CellSize);
    CursorState(d.cols, d.rows, RowMajor(d.rows, d.cols), true, None, [])
  }

  /** A resize re-runs `initGrid`; when the dimensions change, the move effect
      is re-bound and its pending frame is cancelled. */
  function OnResize(s: CursorState, width: nat, height: nat): CursorState
  {
    if !s.listening then s
    else
      var d := GridDims(width, height, CellSize);
      var changed := d.cols != s.cols || d.rows != s.rows;
      s.(cols := d.cols, rows := d.rows, cells := RowMajor(d.rows, d.cols),
         pending := if changed then None else s.pending)
  }

  /** `handleGlobalMouseMove`: request a frame unless one is pending. */
  function OnMove(s: CursorState, p: MousePosition): CursorState
  {
    if !s.listening || s.pending.Some? then s else s.(pending := Some(p))
  }

  /** The frame callback: flash the neighbourhood of the pending move's cell. */
  function OnFrame(s: CursorState, radius: nat, skipped: set<(int, int)>): CursorState
  {
    match s.pending
    case None => s
    case Some(p) =>
      var sel := Neighbourhood(CursorCell(p.clientX), CursorCell(p.clientY), radius, s.cols, s.rows, skipped);
      s.(pending := None, flashed := s.flashed + [sel])
  }

  /** Unmount: remove the listeners and cancel the pending frame. */
  function OnCleanup(s: CursorState): CursorState
  {
    s.(listening := false, pending := None)
  }

  datatype Event =
    | Resize(width: nat, height: nat)
    | Move(p: MousePosition)
    | Frame(wide: bool, skipped: set<(int, int)>)
    | Cleanup

  function Step(s: CursorState, e: Event): CursorState
  {
    match e
    case Resize(w, h) => OnResize(s, w, h)
    case Move(p) => OnMove(s, p)
    case Frame(wide, skipped) => OnFrame(s, if wide then 2 else 1, skipped)
    case Cleanup => OnCleanup(s)
  }

  function Run(s: CursorState, evs: seq<Event>): CursorState
    decreases |evs|
  {
    if evs == [] then s else Run(Step(s, evs[0]), evs[1..])
  }

  function Moves(evs: seq<Event>): nat
  {
    if evs == [] then 0 else (if evs[0].Move? then 1 else 0) + Moves(evs[1..])
  }

  /** A move while a frame is pending changes nothing. */
  lemma MoveWhilePendingIgnored(s: CursorState, p: MousePosition)
    requires s.pending.Some?
    ensures OnMove(s, p) == s
  {
  }

  function Owed(s: CursorState): nat
  {
    |s.flashed| + (if s.pending.Some? then 1 else 0)
  }

  /** Throttling: frames never flash more often than the mouse moved. */
  lemma {:induction false} AtMostOneFlashPerMove(s: CursorState, evs: seq<Event>)
    ensures |s.flashed| <= |Run(s, evs).flashed|
    ensures Owed(Run(s, evs)) <= Owed(s) + Moves(evs)
    decreases |evs|
  {
    if evs != [] {
      var t := Step(s, evs[0]);
      assert |s.flashed| <= |t.flashed| && Owed(t) <= Owed(s) + (if evs[0].Move? then 1 else 0);
      AtMostOneFlashPerMove(t, evs[1..]);
    }
  }

  /** The flashes only ever grow: earlier frames are never revised. */
  lemma {:induction false} FlashesAppendOnly(s: CursorState, evs: seq<Event>)
    ensures |s.flashed| <= |Run(s, evs).flashed| && Run(s, evs).flashed[..|s.flashed|] == s.flashed
    decreases |evs|
  {
    if evs != [] {
      var t := Step(s, evs[0]);
      assert t.flashed[..|s.flashed|] == s.flashed;
      FlashesAppendOnly(t, evs[1..]);
      assert Run(s, evs).flashed[..|t.flashed|] == t.flashed;
    }
  }

  /** After cleanup nothing is flashed and the grid no longer follows the window. */
  lemma {:induction false} InertAfterCleanup(s: CursorState, evs: seq<Event>)
    ensures Run(OnCleanup(s), evs) == OnCleanup(s)
    decreases |evs|
  {
    if evs != [] {
      assert Step(OnCleanup(s), evs[0]) == OnCleanup(s);
      InertAfterCleanup(s, evs[1..]);
    }
  }

  class InteractiveGrid {
    var cols: nat
    var rows: nat
    var cells: seq<Cell>
    var listening: bool
    var pending: Option<MousePosition>
    var flashed: seq<set<int>>

    function State(): CursorState
      reads this
    {
      CursorState(cols, rows, cells, listening, pending, flashed)
    }

    constructor (width: nat, height: nat)
      ensures State() == OnInit(width, height)
    {
      var c, r, cs := InitGrid(width, height);
      cols, rows, cells := c, r, cs;
      listening := true;
      pending := None;
      flashed := [];
    }

    method Resize(width: nat, height: nat)
      modifies this
      ensures State() == OnResize(old(State()), width, height)
    {
      if !listening {
        return;
      }
      var c, r, cs := InitGrid(width, height);
      if c != cols || r != rows {
        pending := None;
      }
      cols, rows, cells := c, r, cs;
    }

    method MouseMove(p: MousePosition)
      modifies this
      ensures State() == OnMove(old(State()), p)
    {
      if !listening || pending.Some? {
        return;
      }
      pending := Some(p);
    }

    /** The requested frame; `draw` is the radius draw in [0, 1). */
    method AnimationFrame(draw: real, skipped: set<(int, int)>)
      requires 0.0 <= draw < 1.0
      modifies this
      ensures State() == OnFrame(old(State()), Radius(draw), skipped)
    {
      if pending.None? {
        return;
      }
      var p := pending.value;
      pending := None;
      var sel := SelectCells(CursorCell(p.clientX), CursorCell(p.clientY), Radius(draw), cols, rows, skipped);
      flashed := flashed + [sel];
    }

    method Cleanup()
      modifies this
      ensures State() == OnCleanup(old(State()))
    {
      listening := false;
      pending := None;
    }
  }
}
