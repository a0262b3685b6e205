/** `InteractiveGridCanvas`: the canvas variant of the cursor effect. Lit cells
    live in a map keyed by grid position ("x,y"); a mouse move lights the
    in-grid, unskipped cells around the cursor (radius 1 or 2), each with a
    tween whose completion deletes its key; an endless frame loop draws every
    cell whose alpha is above 0.01. The grid size is measured once, at mount.
    `Math.random` is supplied (radius choice, skipped positions), and each
    tween's completion is an explicit event. */
module CursorCanvas {
  import opened Grid

  const CellSize: nat := 10

  /** The map key `${x},${y}`, as the pair it is built from. */
  datatype Key = Key(x: int, y: int)

  /** A lit cell: its pixel position and alpha. */
  datatype CanvasCell = CanvasCell(px: int, py: int, alpha: real)

  /** The positions one move lights. */
  function Lit(col: int, row: int, radius: nat, cols: nat, rows: nat, skipped: set<Key>): set<Key>
  {
    set x: int, y: int | row - radius <= y <= row + radius && col - radius <= x <= col + radius &&
      0 <= x < cols && 0 <= y < rows && Key(x, y) !in skipped :: Key(x, y)
  }

  /** A freshly lit cell for a key: `{ x: x * cellSize, y: y * cellSize, alpha: 1 }`. */
  function Fresh(k: Key): CanvasCell
  {
    CanvasCell(k.x * CellSize, k.y * CellSize, 1.0)
  }

  /** The cells the frame loop draws. */
  function Drawn(cells: map<Key, CanvasCell>): (r: set<Key>)
    ensures forall k :: k in r <==> k in cells && cells[k].alpha > 0.01
  {
    set k | k in cells && cells[k].alpha > 0.01
  }

  datatype CanvasState = CanvasState(
    width: nat,                    // canvas.width, follows the window
    height: nat,
    cols: nat,                     // fixed at mount
    rows: nat,
    listening: bool,
    cells: map<Key, CanvasCell>,
    tweens: multiset<Key>)         // the key of every live alpha tween

  function OnMount(width: nat, height: nat): CanvasState
  {
    var d := GridDims(width, height, CellSize);
    CanvasState(width, height, d.cols, d.rows, true, map[], multiset{})
  }

  /** `resizeCanvas`: only the canvas size changes. */
  function OnResize(s: CanvasState, width: nat, height: nat): CanvasState
  {
    if s.listening then s.(width := width, height := height) else s
  }

  /** `handleMouseMove`: (re)light every selected key and start its tween. */
  function OnMove(s: CanvasState, clientX: int, clientY: int, radius: nat, skipped: set<Key>): CanvasState
  {
    if !s.listening then s
    else
      var lit := Lit(clientX / CellSize, clientY / CellSize, radius, s.cols, s.rows, skipped);
      s.(cells := s.cells + (map k | k in lit :: Fresh(k)), tweens := s.tweens + Tweens(lit))
  }

  /** One tween per key of a set. */
  function Tweens(keys: set<Key>): (m: multiset<Key>)
    ensures forall k :: m[k] == (if k in keys then 1 else 0)
  {
    multiset(keys)
  }

  /** A tween's `onComplete`: delete its key, whichever cell is stored there now. */
  function OnTweenDone(s: CanvasState, k: Key): CanvasState
  {
    if k in s.tweens then s.(cells := s.cells - {k}, tweens := s.tweens - multiset{k}) else s
  }

  /** Unmount: remove the listeners, kill the tweens of the cells still in the
      map (one per stored key: the one started with that cell) and clear the
      map. The tweens of cells that a later move overwrote are not reached;
      they stay live. */
  function OnCleanup(s: CanvasState): CanvasState
  {
    s.(listening := false, cells := map[], tweens := s.tweens - multiset(s.cells.Keys))
  }

  /** Stored cells sit in the grid measured at mount, at their key's pixel
      position, and each still has a live tween that will delete it. */
  predicate Valid(s: CanvasState)
  {
    && (forall k :: k in s.cells ==> 0 <= k.x < s.cols && 0 <= k.y < s.rows)
    && (forall k :: k in s.cells ==> s.cells[k].px == k.x * CellSize && s.cells[k].py == k.y * CellSize)
    && (forall k :: k in s.cells ==> k in s.tweens)
  }

  lemma MountValid(width: nat, height: nat)
    ensures Valid(OnMount(width, height)) && OnMount(width, height).cells == map[]
  {
  }

  lemma MoveValid(s: CanvasState, clientX: int, clientY: int, radius: nat, skipped: set<Key>)
    requires Valid(s)
    ensures Valid(OnMove(s, clientX, clientY, radius, skipped))
  {
  }

  lemma TweenDoneValid(s: CanvasState, k: Key)
    requires Valid(s)
    ensures Valid(OnTweenDone(s, k))
  {
    var t := OnTweenDone(s, k);
    forall j | j in t.cells
      ensures j in t.tweens
    {
      assert j != k || k !in s.tweens;
    }
  }

  /** A move stores a fresh cell, with alpha 1, under exactly the lit keys and
      leaves the others alone; the grid size does not change. */
  lemma MoveOverwrites(s: CanvasState, clientX: int, clientY: int, radius: nat, skipped: set<Key>, k: Key)
    requires s.listening
    ensures var t := OnMove(s, clientX, clientY, radius, skipped);
      var lit := Lit(clientX / CellSize, clientY / CellSize, radius, s.cols, s.rows, skipped);
      && (k in lit ==> k in t.cells && t.cells[k] == Fresh(k) && k in Drawn(t.cells))
      && (k !in lit ==> (k in t.cells <==> k in s.cells) && (k in s.cells ==> t.cells[k] == s.cells[k]))
      && t.cols == s.cols && t.rows == s.rows
  {
  }

  /** The lit keys are the in-grid, unskipped positions within the radius. */
  lemma LitIsNeighbourhood(col: int, row: int, radius: nat, cols: nat, rows: nat, skipped: set<Key>, k: Key)
    ensures k in Lit(col, row, radius, cols, rows, skipped) <==>
      (row - radius <= k.y <= row + radius && col - radius <= k.x <= col + radius &&
       0 <= k.x < cols && 0 <= k.y < rows && k !in skipped)
  {
    if row - radius <= k.y <= row + radius && col - radius <= k.x <= col + radius &&
       0 <= k.x < cols && 0 <= k.y < rows && k !in skipped {
      assert Key(k.x, k.y) in Lit(col, row, radius, cols, rows, skipped);
    }
  }

  /** The old tween of a re-lit key deletes the new cell too. */
  lemma StaleTweenDeletesRelit(s: CanvasState, k: Key, clientX: int, clientY: int, radius: nat, skipped: set<Key>)
    requires s.listening && k in s.tweens
    requires k in Lit(clientX / CellSize, clientY / CellSize, radius, s.cols, s.rows, skipped)
    ensures k in OnMove(s, clientX, clientY, radius, skipped).cells
    ensures k !in OnTweenDone(OnMove(s, clientX, clientY, radius, skipped), k).cells
  {
  }

  /** Resizing never changes the grid the moves are clipped to. */
  lemma ResizeKeepsGrid(s: CanvasState, width: nat, height: nat)
    ensures OnResize(s, width, height).cols == s.cols && OnResize(s, width, height).rows == s.rows
    ensures OnResize(s, width, height).cells == s.cells
  {
  }

  /** Cleanup leaves nothing drawn and kills exactly one tween per stored
      cell; the tweens of overwritten cells survive, but their completions
      only delete from the cleared map, and later moves do nothing. */
  lemma CleanupClears(s: CanvasState, clientX: int, clientY: int, radius: nat, skipped: set<Key>, k: Key)
    requires Valid(s)
    ensures Drawn(OnCleanup(s).cells) == {}
    ensures |OnCleanup(s).tweens| == |s.tweens| - |s.cells|
    ensures OnCleanup(s).tweens[k] == (if k in s.cells then s.tweens[k] - 1 else s.tweens[k])
    ensures OnTweenDone(OnCleanup(s), k).cells == map[]
    ensures OnMove(OnCleanup(s), clientX, clientY, radius, skipped) == OnCleanup(s)
  {
    assert multiset(s.cells.Keys) <= s.tweens;
    assert |multiset(s.cells.Keys)| == |s.cells.Keys| == |s.cells|;
  }

  /** Every stored cell's tween is the latest one started for its key, so a
      key that was lit twice before its first tween finished still has a live
      tween after cleanup. */
  lemma RelitTweenSurvivesCleanup(s: CanvasState, clientX: int, clientY: int, radius: nat, skipped: set<Key>, k: Key)
    requires Valid(s) && s.listening && k in s.cells && k in Lit(clientX / CellSize, clientY / CellSize, radius, s.cols, s.rows, skipped)
    ensures k in OnCleanup(OnMove(s, clientX, clientY, radius, skipped)).tweens
  {
    var t := OnMove(s, clientX, clientY, radius, skipped);
    var lit := Lit(clientX / CellSize, clientY / CellSize, radius, s.cols, s.rows, skipped);
    assert t.tweens[k] == s.tweens[k] + 1 >= 2;
    assert k in t.cells;
    assert OnCleanup(t).tweens[k] == t.tweens[k] - 1;
  }

  class GridCanvas {
    var width: nat
    var height: nat
    var cols: nat
    var rows: nat
    var listening: bool
    var cells: map<Key, CanvasCell>
    var tweens: multiset<Key>

    function State(): CanvasState
      reads this
    {
      CanvasState(width, height, cols, rows, listening, cells, tweens)
    }

    constructor (windowWidth: nat, windowHeight: nat)
      ensures State() == OnMount(windowWidth, windowHeight) && Valid(State())
    {
      width, height := windowWidth, windowHeight;
      cols := CeilDiv(windowWidth, CellSize);
      rows := CeilDiv(windowHeight, CellSize);
      listening := true;
      cells := map[];
      tweens := multiset{};
    }

    method Resize(windowWidth: nat, windowHeight: nat)
      modifies this
      ensures State() == OnResize(old(State()), windowWidth, windowHeight)
    {
      if listening {
        width, height := windowWidth, windowHeight;
      }
    }

    /** `handleMouseMove`, with the radius draw in [0, 1) and the skipped positions. */
    method MouseMove(clientX: int, clientY: int, draw: real, skipped: set<Key>)
      requires 0.0 <= draw < 1.0
      modifies this
      ensures State() == OnMove(old(State()), clientX, clientY, (draw * 2.0).Floor + 1, skipped)
    {
      if !listening {
        return;
      }
      var col := clientX / CellSize;
      var row := clientY / CellSize;
      var radius: nat := (draw * 2.0).Floor + 1;
      var lit := LightUp(col, row, radius, cols, rows, skipped);
      assert lit == map k | k in Lit(col, row, radius, cols, rows, skipped) :: Fresh(k);
      cells := cells + lit;
      tweens := tweens + multiset(lit.Keys);
    }

    /** The nested loop of `handleMouseMove`: the fresh cells it stores. */
    static method LightUp(col: int, row: int, radius: nat, cols: nat, rows: nat, skipped: set<Key>)
      returns (lit: map<Key, CanvasCell>)
      ensures lit.Keys == Lit(col, row, radius, cols, rows, skipped)
      ensures forall k :: k in lit ==> lit[k] == Fresh(k)
    {
      lit := map[];
      var y := row - radius;
      while y <= row + radius
        invariant row - radius <= y <= row + radius + 1
        invariant forall k :: k in lit ==> lit[k] == Fresh(k)
        invariant lit.Keys == set x: int, y': int | row - radius <= y' < y && col - radius <= x <= col + radius &&
            0 <= x < cols && 0 <= y' < rows && Key(x, y') !in skipped :: Key(x, y')
      {
        var x := col - radius;
        while x <= col + radius
          invariant col - radius <= x <= col + radius + 1
          invariant forall k :: k in lit ==> lit[k] == Fresh(k)
          invariant lit.Keys == (set x': int, y': int | row - radius <= y' < y && col - radius <= x' <= col + radius &&
              0 <= x' < cols && 0 <= y' < rows && Key(x', y') !in skipped :: Key(x', y')) +
              (set x': int | col - radius <= x' < x && 0 <= x' < cols && 0 <= y < rows && Key(x', y) !in skipped :: Key(x', y))
        {
          if 0 <= x < cols && 0 <= y < rows && Key(x, y) !in skipped {
            lit := lit[Key(x, y) := CanvasCell(x * CellSize, y * CellSize, 1.0)];
          }
          x := x + 1;
        }
        y := y + 1;
      }
      ghost var lit' := Lit(col, row, radius, cols, rows, skipped);
      ghost var done := set x: int, y': int | row - radius <= y' < y && col - radius <= x <= col + radius &&
        0 <= x < cols && 0 <= y' < rows && Key(x, y') !in skipped :: Key(x, y');
      forall k | k in lit'
        ensures k in done
      {
        LitIsNeighbourhood(col, row, radius, cols, rows, skipped, k);
        assert Key(k.x, k.y) in done;
      }
      forall k | k in done
        ensures k in lit'
      {
        LitIsNeighbourhood(col, row, radius, cols, rows, skipped, k);
      }
      assert done == lit';
    }

    method TweenDone(k: Key)
      modifies this
      ensures State() == OnTweenDone(old(State()), k)
    {
      if k in tweens {
        cells := cells - {k};
        tweens := tweens - multiset{k};
      }
    }

    method Cleanup()
      modifies this
      ensures State() == OnCleanup(old(State()))
    {
      listening := false;
      tweens := tweens - multiset(cells.Keys);
      cells := map[];
    }
  }
}
