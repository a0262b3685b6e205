/** `ScreenMigration`: the full-screen grid of 40 px cells shown between pages.
    Once the viewport is measured, the cells are numbered row-major and
    shuffled; two animation frames later the cells fade in (or appear at once
    with `skipFadeIn`), the fade-in is reported, a 500 ms timeout starts the
    fade-out in a second random order, and when it ends the `showMigration`
    session flag is cleared and the fade-out is reported. Animation frames,
    timeline completions and the timeout are explicit events; `Math.random` is
    replaced by supplied draws. */
module ScreenMigration {
  import opened Wrappers
  import opened Grid
  import opened Shuffle

  const CellSize: nat := 40
  /** The pause between the fade-in and the fade-out. */
  const HoldMs: nat := 500

  /** The ids of a list of cells, in order. */
  function Ids(cells: seq<Cell>): (r: seq<nat>)
    ensures |r| == |cells| && forall k :: 0 <= k < |cells| ==> r[k] == cells[k].id
  {
    seq(|cells|, k requires 0 <= k < |cells| => cells[k].id)
  }

  /** `0, 1, ..., n - 1`. */
  function Range(n: nat): (r: seq<nat>)
    ensures |r| == n && forall k :: 0 <= k < n ==> r[k] == k
  {
    seq(n, k requires 0 <= k < n => k)
  }

  /** Shuffling cells shuffles their ids the same way. */
  lemma {:induction false} ShuffleDownIds(s: seq<Cell>, js: seq<nat>, i: nat)
    requires i < |s| && ValidDraws(js, |s|)
    ensures Ids(ShuffleDown(s, js, i)) == ShuffleDown(Ids(s), js, i)
    decreases i
  {
    if i > 0 {
      var t := Swap(s, i, js[i]);
      assert Ids(t) == Swap(Ids(s), i, js[i]);
      ShuffleDownIds(t, js, i - 1);
    }
  }

  lemma FisherYatesIds(s: seq<Cell>, js: seq<nat>)
    requires ValidDraws(js, |s|)
    ensures Ids(FisherYates(s, js)) == FisherYates(Ids(s), js)
  {
    if |s| > 0 {
      ShuffleDownIds(s, js, |s| - 1);
    }
  }

  /** The cell list of the animation effect: built row-major, then shuffled in
      place. Every id of the grid occurs exactly once, still attached to its
      own row and column. */
  method InitialCells(rows: nat, cols: nat, js: seq<nat>) returns (cells: array<Cell>)
    requires ValidDraws(js, rows * cols)
    ensures fresh(cells) && cells.Length == rows * cols
    ensures Ids(cells[..]) == FisherYates(Range(rows * cols), js)
    ensures multiset(Ids(cells[..])) == multiset(Range(rows * cols))
    ensures forall k :: 0 <= k < cells.Length ==>
      cells[k].row < rows && cells[k].col < cols && cells[k].id == Id(cells[k].row, cells[k].col, cols)
  {
    var ordered := RowMajorCells(rows, cols);
    cells := new Cell[|ordered|](k requires 0 <= k < |ordered| => ordered[k]);
    assert cells[..] == ordered;
    ShuffleInPlace(cells, js);
    forall k | 0 <= k < rows * cols
      ensures Ids(ordered)[k] == Range(rows * cols)[k]
    {
      RowMajorAt(rows, cols, k);
    }
    assert Ids(ordered) == Range(rows * cols);
    FisherYatesIds(ordered, js);
    FisherYatesPermutes(Range(rows * cols), js);
    forall k | 0 <= k < cells.Length
      ensures cells[k].row < rows && cells[k].col < cols && cells[k].id == Id(cells[k].row, cells[k].col, cols)
    {
      assert cells[k] in multiset(cells[..]);
      assert cells[k] in ordered;
      var p :| 0 <= p < |ordered| && ordered[p] == cells[k];
      RowMajorAt(rows, cols, p);
      IdOfPosition(p, cols);
    }
  }

  /** The fade-out order: a fresh shuffle of a copy, so `cells` itself (which the
      method may not modify) keeps its order. */
  method FadeOutOrder(cells: array<Cell>, js: seq<nat>) returns (order: seq<Cell>)
    requires ValidDraws(js, cells.Length)
    ensures order == FisherYates(cells[..], js)
    ensures multiset(order) == multiset(cells[..])
  {
    var copy := new Cell[cells.Length];
    forall k | 0 <= k < cells.Length {
      copy[k] := cells[k];
    }
    assert copy[..] == cells[..];
    ShuffleInPlace(copy, js);
    order := copy[..];
  }

  /** Where the component is between mount and the end of the fade-out. */
  datatype Phase =
    | Unsized          // cols or rows still 0: the animation effect returns early
    | OuterFrame       // first requestAnimationFrame pending
    | InnerFrame       // second, nested requestAnimationFrame pending
    | FadingIn         // fade-in timeline running
    | Holding          // 500 ms timeout pending
    | FadingOut        // fade-out timeline running
    | ContentFading    // the container's own opacity tween running
    | Finished         // fade-out reported
    | Stopped          // cleaned up before finishing

  datatype MigrationState = MigrationState(
    skipFadeIn: bool,
    sized: bool,
    cols: nat,
    rows: nat,
    phase: Phase,
    isAnimating: bool,
    timeout: Option<nat>,     // delay of the pending timeout, if any
    fadeInReports: nat,       // calls of onFadeInComplete
    fadeOutReports: nat,      // calls of onFadeOutComplete
    showMigration: bool)      // sessionStorage "showMigration" present

  function Initial(skipFadeIn: bool, showMigration: bool): MigrationState
  {
    MigrationState(skipFadeIn, false, 0, 0, Unsized, true, None, 0, 0, showMigration)
  }

  /** The sizing effect, then the animation effect it re-runs: the grid covers
      the viewport, and the first frame is requested only when both
      dimensions are non-zero. */
  function OnSized(s: MigrationState, hasWindow: bool, width: nat, height: nat): MigrationState
  {
    if s.sized || !hasWindow then s
    else
      var d := GridDims(width, height, CellSize);
      s.(sized := true, cols := d.cols, rows := d.rows,
         phase := if d.cols == 0 || d.rows == 0 then Unsized else OuterFrame)
  }

  function OnOuterFrame(s: MigrationState): MigrationState
  {
    if s.phase == OuterFrame then s.(phase := InnerFrame) else s
  }

  /** Fade-in done (or skipped): report it and wait `HoldMs`. */
  function FadeInDone(s: MigrationState): MigrationState
  {
    s.(phase := Holding, isAnimating := false, fadeInReports := s.fadeInReports + 1, timeout := Some(HoldMs))
  }

  /** The nested frame runs `startAnimation`. */
  function OnInnerFrame(s: MigrationState): MigrationState
  {
    if s.phase != InnerFrame then s
    else if s.skipFadeIn then FadeInDone(s)
    else s.(phase := FadingIn)
  }

  function OnFadeInComplete(s: MigrationState): MigrationState
  {
    if s.phase == FadingIn then FadeInDone(s) else s
  }

  function OnTimeout(s: MigrationState): MigrationState
  {
    if s.phase == Holding then s.(phase := FadingOut, timeout := None) else s
  }

  /** Clear `showMigration` and report the fade-out. */
  function FadeOutDone(s: MigrationState): MigrationState
  {
    s.(phase := Finished, showMigration := false, fadeOutReports := s.fadeOutReports + 1)
  }

  /** The fade-out timeline's completion: fade the container first when it exists. */
  function OnFadeOutComplete(s: MigrationState, hasContent: bool): MigrationState
  {
    if s.phase != FadingOut then s
    else if hasContent then s.(phase := ContentFading)
    else FadeOutDone(s)
  }

  function OnContentFaded(s: MigrationState): MigrationState
  {
    if s.phase == ContentFading then FadeOutDone(s) else s
  }

  /** The effect's cleanup as written: it cancels the outer frame, the timeout
      and both timelines, but not the nested frame nor the container tween. */
  function OnCleanupAsWritten(s: MigrationState): MigrationState
  {
    match s.phase
    case OuterFrame => s.(phase := Stopped, timeout := None)
    case FadingIn => s.(phase := Stopped, timeout := None)
    case Holding => s.(phase := Stopped, timeout := None)
    case FadingOut => s.(phase := Stopped, timeout := None)
    case _ => s
  }

  /** The cleanup that also cancels the nested frame and the container tween. */
  function OnCleanup(s: MigrationState): MigrationState
  {
    if s.phase in {OuterFrame, InnerFrame, FadingIn, Holding, FadingOut, ContentFading}
    then s.(phase := Stopped, timeout := None)
    else s
  }

  datatype Event =
    | Sized(hasWindow: bool, width: nat, height: nat)
    | Frame1
    | Frame2
    | FadeInComplete
    | Timeout
    | FadeOutComplete(hasContent: bool)
    | ContentFaded
    | Cleanup

  function Step(s: MigrationState, e: Event): MigrationState
  {
    match e
    case Sized(w, width, height) => OnSized(s, w, width, height)
    case Frame1 => OnOuterFrame(s)
    case Frame2 => OnInnerFrame(s)
    case FadeInComplete => OnFadeInComplete(s)
    case Timeout => OnTimeout(s)
    case FadeOutComplete(c) => OnFadeOutComplete(s, c)
    case ContentFaded => OnContentFaded(s)
    case Cleanup => OnCleanup(s)
  }

  function Run(s: MigrationState, evs: seq<Event>): MigrationState
    decreases |evs|
  {
    if evs == [] then s else Run(Step(s, evs[0]), evs[1..])
  }

  /** No frame is requested, and so no animation starts, while a dimension is 0. */
  lemma ZeroDimensionNeverStarts(s: MigrationState, width: nat, height: nat)
    requires !s.sized && s.phase == Unsized
    requires width == 0 || height == 0
    ensures OnSized(s, true, width, height).phase == Unsized
    ensures forall evs :: Run(OnSized(s, true, width, height), evs).phase == Unsized
  {
    var t := OnSized(s, true, width, height);
    forall evs ensures Run(t, evs).phase == Unsized {
      UnsizedIsInert(t, evs);
    }
  }

  lemma {:induction false} UnsizedIsInert(s: MigrationState, evs: seq<Event>)
    requires s.sized && s.phase == Unsized
    ensures Run(s, evs) == s
    decreases |evs|
  {
    if evs != [] {
      assert Step(s, evs[0]) == s;
      UnsizedIsInert(s, evs[1..]);
    }
  }

  /** With `skipFadeIn`, the nested frame reports the fade-in at once and
      schedules the fade-out `HoldMs` later; without it, nothing is reported
      until the fade-in timeline completes. */
  lemma StartAnimation(s: MigrationState)
    requires s.phase == InnerFrame && Consistent(s)
    ensures s.skipFadeIn ==> (OnInnerFrame(s).fadeInReports == s.fadeInReports + 1 &&
      OnInnerFrame(s).timeout == Some(HoldMs) && !OnInnerFrame(s).isAnimating)
    ensures !s.skipFadeIn ==> (OnInnerFrame(s).fadeInReports == s.fadeInReports &&
      OnInnerFrame(s).phase == FadingIn && OnInnerFrame(s).timeout == None)
  {
  }

  /** Both completion branches clear the flag and report the fade-out once. */
  lemma FadeOutBranches(s: MigrationState)
    requires s.phase == FadingOut
    ensures var direct := OnFadeOutComplete(s, false);
      !direct.showMigration && direct.fadeOutReports == s.fadeOutReports + 1
    ensures var viaContent := OnContentFaded(OnFadeOutComplete(s, true));
      !viaContent.showMigration && viaContent.fadeOutReports == s.fadeOutReports + 1
    ensures OnFadeOutComplete(s, true).fadeOutReports == s.fadeOutReports
  {
  }

  /** The reports so far, as a function of the phase. */
  predicate Consistent(s: MigrationState)
  {
    && (s.phase in {Unsized, OuterFrame, InnerFrame, FadingIn} ==> s.fadeInReports == 0 && s.isAnimating)
    && (s.phase in {Holding, FadingOut, ContentFading, Finished} ==> s.fadeInReports == 1 && !s.isAnimating)
    && (s.phase == Stopped ==> s.fadeInReports <= 1)
    && s.fadeOutReports == (if s.phase == Finished then 1 else 0)
    && (s.phase == Finished ==> !s.showMigration)
    && (s.timeout.Some? <==> s.phase == Holding)
    && (s.timeout.Some? ==> s.timeout.value == HoldMs)
    && (s.phase != Unsized ==> s.sized && s.cols > 0 && s.rows > 0)
  }

  lemma StepConsistent(s: MigrationState, e: Event)
    requires Consistent(s)
    ensures Consistent(Step(s, e))
  {
  }

  /** Each callback is reported at most once, whatever the order of events. */
  lemma {:induction false} ReportedAtMostOnce(s: MigrationState, evs: seq<Event>)
    requires Consistent(s)
    ensures Consistent(Run(s, evs))
    ensures Run(s, evs).fadeInReports <= 1 && Run(s, evs).fadeOutReports <= 1
    decreases |evs|
  {
    if evs != [] {
      StepConsistent(s, evs[0]);
      ReportedAtMostOnce(Step(s, evs[0]), evs[1..]);
    }
  }

  lemma InitialConsistent(skipFadeIn: bool, showMigration: bool)
    ensures Consistent(Initial(skipFadeIn, showMigration))
  {
  }

  /** After the cleanup of a started effect, no callback reaches the page. */
  lemma {:induction false} NothingAfterCleanup(s: MigrationState, evs: seq<Event>)
    requires s.sized && s.phase != Finished
    ensures Run(OnCleanup(s), evs).fadeInReports == s.fadeInReports
    ensures Run(OnCleanup(s), evs).fadeOutReports == s.fadeOutReports
    ensures Run(OnCleanup(s), evs).showMigration == s.showMigration
    decreases |evs|
  {
    var c := OnCleanup(s);
    if evs != [] {
      assert Step(c, evs[0]) == c;
      NothingAfterCleanup(s, evs[1..]);
    }
  }

  /** The cleanup as written lets the nested frame through: unmounting between
      the two frames still starts the animation and reports the fade-in. */
  lemma CleanupMissesInnerFrame()
    ensures var s := OnOuterFrame(OnSized(Initial(true, true), true, 400, 400));
      s.phase == InnerFrame &&
      OnInnerFrame(OnCleanupAsWritten(s)).fadeInReports == 1 &&
      OnCleanup(s).phase == Stopped &&
      OnInnerFrame(OnCleanup(s)).fadeInReports == 0
  {
  }

  /** ... and unmounting during the container tween still clears the flag and
      reports the fade-out. */
  lemma CleanupMissesContentTween(s: MigrationState)
    requires s.phase == ContentFading && s.showMigration && s.fadeOutReports == 0
    ensures OnContentFaded(OnCleanupAsWritten(s)).fadeOutReports == 1
    ensures !OnContentFaded(OnCleanupAsWritten(s)).showMigration
    ensures OnContentFaded(OnCleanup(s)).fadeOutReports == 0
  {
  }

  /** The two cleanups agree wherever the one as written cancels everything pending. */
  lemma CleanupsAgree(s: MigrationState)
    requires s.phase != InnerFrame && s.phase != ContentFading
    ensures OnCleanupAsWritten(s) == OnCleanup(s)
  {
  }

  class Migration {
    var skipFadeIn: bool
    var sized: bool
    var cols: nat
    var rows: nat
    var phase: Phase
    var isAnimating: bool
    var timeout: Option<nat>
    var fadeInReports: nat
    var fadeOutReports: nat
    var showMigration: bool
    var cells: array<Cell>

    function State(): MigrationState
      reads this
    {
      MigrationState(skipFadeIn, sized, cols, rows, phase, isAnimating, timeout,
                     fadeInReports, fadeOutReports, showMigration)
    }

    constructor (skip: bool, flag: bool)
      ensures State() == Initial(skip, flag) && cells.Length == 0
    {
      skipFadeIn := skip;
      sized := false;
      cols := 0;
      rows := 0;
      phase := Unsized;
      isAnimating := true;
      timeout := None;
      fadeInReports := 0;
      fadeOutReports := 0;
      showMigration := flag;
      cells := new Cell[0];
    }

    /** The sizing effect; when both dimensions are positive, the animation
        effect builds and shuffles the cells and requests the first frame. */
    method Size(hasWindow: bool, width: nat, height: nat, js: seq<nat>)
      requires ValidDraws(js, CeilDiv(width, CellSize) * CeilDiv(height, CellSize))
      modifies this
      ensures State() == OnSized(old(State()), hasWindow, width, height)
      ensures !old(sized) && hasWindow && phase == OuterFrame ==> (fresh(cells) &&
        cells.Length == rows * cols && multiset(Ids(cells[..])) == multiset(Range(rows * cols)))
    {
      if sized || !hasWindow {
        return;
      }
      var d := GridDims(width, height, CellSize);
      sized := true;
      cols := d.cols;
      rows := d.rows;
      if cols == 0 || rows == 0 {
        phase := Unsized;
        return;
      }
      cells := InitialCells(rows, cols, js);
      phase := OuterFrame;
    }

    method Frame1()
      modifies this
      ensures State() == OnOuterFrame(old(State()))
    {
      if phase == OuterFrame {
        phase := InnerFrame;
      }
    }

    method ReportFadeIn()
      modifies this
      ensures State() == FadeInDone(old(State()))
    {
      phase := Holding;
      isAnimating := false;
      fadeInReports := fadeInReports + 1;
      timeout := Some(HoldMs);
    }

    method Frame2()
      modifies this
      ensures State() == OnInnerFrame(old(State()))
    {
      if phase != InnerFrame {
        return;
      }
      if skipFadeIn {
        ReportFadeIn();
      } else {
        phase := FadingIn;
      }
    }

    method FadeInComplete()
      modifies this
      ensures State() == OnFadeInComplete(old(State()))
    {
      if phase == FadingIn {
        ReportFadeIn();
      }
    }

    /** The timeout starts the fade-out over a reshuffled copy of the cells. */
    method Timeout(js: seq<nat>) returns (order: seq<Cell>)
      requires ValidDraws(js, cells.Length)
      modifies this
      ensures State() == OnTimeout(old(State())) && cells == old(cells)
      ensures cells[..] == old(cells[..])
      ensures old(phase) == Holding ==> order == FisherYates(cells[..], js)
      ensures old(phase) != Holding ==> order == []
    {
      order := [];
      if phase == Holding {
        phase := FadingOut;
        timeout := None;
        order := FadeOutOrder(cells, js);
      }
    }

    method ReportFadeOut()
      modifies this
      ensures State() == FadeOutDone(old(State()))
    {
      phase := Finished;
      showMigration := false;
      fadeOutReports := fadeOutReports + 1;
    }

    method FadeOutComplete(hasContent: bool)
      modifies this
      ensures State() == OnFadeOutComplete(old(State()), hasContent)
    {
      if phase != FadingOut {
        return;
      }
      if hasContent {
        phase := ContentFading;
      } else {
        ReportFadeOut();
      }
    }

    method ContentFaded()
      modifies this
      ensures State() == OnContentFaded(old(State()))
    {
      if phase == ContentFading {
        ReportFadeOut();
      }
    }

    method Cleanup()
      modifies this
      ensures State() == OnCleanup(old(State()))
    {
      if phase in {OuterFrame, InnerFrame, FadingIn, Holding, FadingOut, ContentFading} {
        phase := Stopped;
        timeout := None;
      }
    }
  }
}
