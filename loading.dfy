/** `Loading`: the loader that whitens a grid of cells from the outside in.
    Cells are numbered in reading order, sorted by their distance from the
    grid's centre (farthest first), split into groups of nearly equal
    distance, shuffled inside each group, and given start times group by
    group. `Math.sqrt` and `Math.random` are supplied: the square root as a
    function, the shuffle draws as one list per group. */
module Loading {
  import opened Wrappers
  import opened Grid
  import opened Shuffle

  /** One entry of `cellDistances`: the cell's index and its distance from the centre. */
  datatype CellDistance = CellDistance(index: nat, col: nat, row: nat, distance: real)

  /** `(col - cols / 2)² + (row - rows / 2)²` in exact arithmetic. */
  function SquaredDistance(col: nat, row: nat, cols: nat, rows: nat): (d: real)
    ensures d >= 0.0
  {
    var dx := col as real - cols as real / 2.0;
    var dy := row as real - rows as real / 2.0;
    dx * dx + dy * dy
  }

  /** The `forEach` over the created cells: index `i` lies at column
      `i % cols` and row `i / cols`, inside the grid. */
  method MeasureCells(cols: nat, rows: nat, sqrt: real -> real) returns (cds: seq<CellDistance>)
    requires cols > 0
    ensures |cds| == cols * rows
    ensures forall i :: 0 <= i < |cds| ==>
      cds[i].index == i && cds[i].col == ColOf(i, cols) && cds[i].row == RowOf(i, cols) &&
      cds[i].col < cols && cds[i].row < rows &&
      cds[i].distance == sqrt(SquaredDistance(cds[i].col, cds[i].row, cols, rows))
  {
    cds := [];
    var i := 0;
    while i < cols * rows
      invariant 0 <= i <= cols * rows && |cds| == i
      invariant forall k :: 0 <= k < i ==>
        cds[k].index == k && cds[k].col == ColOf(k, cols) && cds[k].row == RowOf(k, cols) &&
        cds[k].col < cols && cds[k].row < rows &&
        cds[k].distance == sqrt(SquaredDistance(cds[k].col, cds[k].row, cols, rows))
    {
      var col := i % cols;
      var row := i / cols;
      RowInRange(i, rows, cols);
      cds := cds + [CellDistance(i, col, row, sqrt(SquaredDistance(col, row, cols, rows)))];
      i := i + 1;
    }
  }

  /** Farthest first: distances never increase along the list. */
  predicate FarthestFirst(s: seq<CellDistance>)
  {
    forall i, j :: 0 <= i < j < |s| ==> s[i].distance >= s[j].distance
  }

  /** `cellDistances.sort((a, b) => b.distance - a.distance)`, as an insertion
      sort in place. */
  method SortFarthestFirst(a: array<CellDistance>)
    modifies a
    ensures FarthestFirst(a[..])
    ensures multiset(a[..]) == multiset(old(a[..]))
  {
    if a.Length == 0 {
      return;
    }
    var i := 1;
    while i < a.Length
      invariant 1 <= i <= a.Length
      invariant FarthestFirst(a[..i])
      invariant multiset(a[..]) == multiset(old(a[..]))
    {
      SinkInto(a, i);
      i := i + 1;
    }
    assert a[..a.Length] == a[..];
  }

  /** `s[..i + 1]` is farthest first except that `s[j]` may be out of place. */
  predicate SortedBut(s: seq<CellDistance>, i: nat, j: nat)
    requires i < |s|
  {
    forall p, q :: 0 <= p < q <= i && q != j ==> s[p].distance >= s[q].distance
  }

  /** Swapping a misplaced `s[j]` with its nearer left neighbour moves the gap left. */
  lemma SinkStep(s: seq<CellDistance>, i: nat, j: nat)
    requires 0 < j <= i < |s| && SortedBut(s, i, j) && s[j - 1].distance < s[j].distance
    ensures SortedBut(Swap(s, j - 1, j), i, j - 1)
    ensures multiset(Swap(s, j - 1, j)) == multiset(s)
  {
    SwapPermutes(s, j - 1, j);
  }

  /** One pass of the insertion sort: move `a[i]` left past the nearer cells,
      so that `a[..i + 1]` is farthest first. */
  method SinkInto(a: array<CellDistance>, i: nat)
    requires i < a.Length && FarthestFirst(a[..i])
    modifies a
    ensures FarthestFirst(a[..i + 1])
    ensures multiset(a[..]) == multiset(old(a[..]))
  {
    var j := i;
    assert SortedBut(a[..], i, j);
    while j > 0 && a[j - 1].distance < a[j].distance
      invariant 0 <= j <= i
      invariant multiset(a[..]) == multiset(old(a[..]))
      invariant SortedBut(a[..], i, j)
    {
      SinkStep(a[..], i, j);
      a[j - 1], a[j] := a[j], a[j - 1];
      j := j - 1;
    }
  }

  function Abs(x: real): (r: real)
    ensures r >= 0.0 && (r == x || r == -x)
  {
    if x < 0.0 then -x else x
  }

  /** A group: non-empty, every distance less than 0.1 from the first one. */
  predicate CloseToLeader(g: seq<CellDistance>)
  {
    g != [] && forall k :: 0 <= k < |g| ==> Abs(g[k].distance - g[0].distance) < 0.1
  }

  /** Every group is close to its leader, and consecutive leaders are 0.1 or more apart. */
  predicate WellGrouped(groups: seq<seq<CellDistance>>)
  {
    && (forall g :: 0 <= g < |groups| ==> CloseToLeader(groups[g]))
    && (forall g :: 0 < g < |groups| ==> Abs(groups[g][0].distance - groups[g - 1][0].distance) >= 0.1)
  }

  /** The grouping loop: a new group starts at the first cell that is 0.1 or
      more away from the current group's first distance. Reading
      `cellDistances[0]` fails when there are no cells, so an empty list gives
      `None`. */
  method GroupByDistance(s: seq<CellDistance>) returns (r: Option<seq<seq<CellDistance>>>)
    ensures r.None? <==> s == []
    ensures r.Some? ==> Flatten(r.value) == s && WellGrouped(r.value)
  {
    if s == [] {
      return None;
    }
    var groups: seq<seq<CellDistance>> := [];
    var current: seq<CellDistance> := [s[0]];
    var currentDistance := s[0].distance;
    var i := 1;
    while i < |s|
      invariant 1 <= i <= |s|
      invariant Grouping(s, i, groups, current) && current[0].distance == currentDistance
    {
      var d := s[i].distance;
      if Abs(d - currentDistance) < 0.1 {
        JoinGroup(s, i, groups, current);
        current := current + [s[i]];
      } else {
        StartGroup(s, i, groups, current);
        groups := groups + [current];
        current := [s[i]];
        currentDistance := d;
      }
      i := i + 1;
    }
    FlattenSnoc(groups, current);
    WellGroupedSnoc(groups, current);
    assert s[..|s|] == s;
    r := Some(groups + [current]);
  }

  /** The grouping loop's invariant after `i` cells: closed groups plus the
      open one spell out `s[..i]`, and the groups so far are well formed. */
  predicate Grouping(s: seq<CellDistance>, i: nat, groups: seq<seq<CellDistance>>, current: seq<CellDistance>)
    requires i <= |s|
  {
    && Flatten(groups) + current == s[..i]
    && CloseToLeader(current)
    && WellGrouped(groups)
    && (|groups| > 0 ==> Abs(current[0].distance - groups[|groups| - 1][0].distance) >= 0.1)
  }

  lemma JoinGroup(s: seq<CellDistance>, i: nat, groups: seq<seq<CellDistance>>, current: seq<CellDistance>)
    requires i < |s| && Grouping(s, i, groups, current)
    requires Abs(s[i].distance - current[0].distance) < 0.1
    ensures Grouping(s, i + 1, groups, current + [s[i]])
  {
    assert s[..i + 1] == s[..i] + [s[i]];
  }

  lemma StartGroup(s: seq<CellDistance>, i: nat, groups: seq<seq<CellDistance>>, current: seq<CellDistance>)
    requires i < |s| && Grouping(s, i, groups, current)
    requires Abs(s[i].distance - current[0].distance) >= 0.1
    ensures Grouping(s, i + 1, groups + [current], [s[i]])
  {
    assert s[..i + 1] == s[..i] + [s[i]];
    FlattenSnoc(groups, current);
    WellGroupedSnoc(groups, current);
  }

  lemma WellGroupedSnoc(groups: seq<seq<CellDistance>>, g: seq<CellDistance>)
    requires WellGrouped(groups) && CloseToLeader(g)
    requires |groups| > 0 ==> Abs(g[0].distance - groups[|groups| - 1][0].distance) >= 0.1
    ensures WellGrouped(groups + [g])
  {
  }

  /** The groups' cells in order. */
  function Flatten(groups: seq<seq<CellDistance>>): (r: seq<CellDistance>)
  {
    if groups == [] then [] else Flatten(groups[..|groups| - 1]) + groups[|groups| - 1]
  }

  lemma FlattenSnoc(groups: seq<seq<CellDistance>>, g: seq<CellDistance>)
    ensures Flatten(groups + [g]) == Flatten(groups) + g
  {
    assert (groups + [g])[..|groups|] == groups;
  }

  /** Grouping a farthest-first list moves inward: each group's first distance
      is at least 0.1 below the previous group's. */
  lemma GroupsMoveInward(groups: seq<seq<CellDistance>>)
    requires FarthestFirst(Flatten(groups)) && WellGrouped(groups)
    ensures forall g :: 0 < g < |groups| ==> groups[g][0].distance <= groups[g - 1][0].distance - 0.1
  {
    LeadersNonIncreasing(groups);
  }

  lemma {:induction false} LeadersNonIncreasing(groups: seq<seq<CellDistance>>)
    requires FarthestFirst(Flatten(groups)) && forall g :: 0 <= g < |groups| ==> groups[g] != []
    ensures forall g :: 0 < g < |groups| ==> groups[g][0].distance <= groups[g - 1][0].distance
    decreases |groups|
  {
    if |groups| > 1 {
      var n := |groups| - 1;
      var init := groups[..n];
      assert groups == init + [groups[n]];
      FlattenSnoc(init, groups[n]);
      var f := Flatten(init);
      assert Flatten(groups) == f + groups[n];
      assert Flatten(groups)[..|f|] == f;
      LeadersNonIncreasing(init);
      assert init[..n - 1] + [groups[n - 1]] == init;
      FlattenSnoc(init[..n - 1], groups[n - 1]);
      var before := Flatten(init[..n - 1]);
      assert f == before + groups[n - 1];
      assert Flatten(groups)[|before|] == groups[n - 1][0];
      assert Flatten(groups)[|f|] == groups[n][0];
    }
  }

  lemma {:induction false} FlattenMultiset(groups: seq<seq<CellDistance>>, shuffled: seq<seq<CellDistance>>)
    requires |shuffled| == |groups|
    requires forall g :: 0 <= g < |groups| ==> multiset(shuffled[g]) == multiset(groups[g])
    ensures multiset(Flatten(shuffled)) == multiset(Flatten(groups))
    decreases |groups|
  {
    if groups != [] {
      var n := |groups| - 1;
      FlattenMultiset(groups[..n], shuffled[..n]);
    }
  }

  /** The draw `Math.floor(Math.random() * (i + 1))` of step `i` of the shuffle
      of group `g`, from an arbitrary supplied choice. */
  function GroupDraws(pick: (nat, nat) -> nat, g: nat, n: nat): (js: seq<nat>)
    ensures ValidDraws(js, n)
  {
    seq(n, i requires 0 <= i < n => if i == 0 then 0 else pick(g, i) % (i + 1))
  }

  /** Each group shuffled on its own. */
  function ShuffleGroups(groups: seq<seq<CellDistance>>, pick: (nat, nat) -> nat): (r: seq<seq<CellDistance>>)
    ensures |r| == |groups|
  {
    seq(|groups|, g requires 0 <= g < |groups| => FisherYates(groups[g], GroupDraws(pick, g, |groups[g]|)))
  }

  /** Shuffling inside the groups keeps every group's membership and the
      cells overall. */
  lemma ShuffleKeepsGroups(groups: seq<seq<CellDistance>>, pick: (nat, nat) -> nat)
    ensures forall g :: 0 <= g < |groups| ==>
      multiset(ShuffleGroups(groups, pick)[g]) == multiset(groups[g])
    ensures multiset(Flatten(ShuffleGroups(groups, pick))) == multiset(Flatten(groups))
  {
    var r := ShuffleGroups(groups, pick);
    forall g | 0 <= g < |groups|
      ensures multiset(r[g]) == multiset(groups[g])
    {
      FisherYatesPermutes(groups[g], GroupDraws(pick, g, |groups[g]|));
    }
    FlattenMultiset(groups, r);
  }

  /** `groupIndex * 0.02 + (cellIndex / group.length) * 0.01`. */
  function Delay(group: nat, cell: nat, groupSize: nat): (d: real)
    requires cell < groupSize
    ensures 0.02 * group as real <= d < 0.02 * group as real + 0.01
  {
    group as real * 0.02 + (cell as real / groupSize as real) * 0.01
  }

  /** Every cell of an earlier group starts before every cell of a later one. */
  lemma EarlierGroupsFirst(g1: nat, c1: nat, n1: nat, g2: nat, c2: nat, n2: nat)
    requires c1 < n1 && c2 < n2 && g1 < g2
    ensures Delay(g1, c1, n1) < Delay(g2, c2, n2)
  {
  }

  /** Within a group, start times follow the order after the shuffle. */
  lemma DelayIncreasesInGroup(g: nat, c1: nat, c2: nat, n: nat)
    requires c1 < c2 < n
    ensures Delay(g, c1, n) < Delay(g, c2, n)
  {
    assert c1 as real / n as real < c2 as real / n as real;
  }

  /** `distanceGroups.length * 0.02 + 0.3`: the duration the logo's tween is based on. */
  function TotalDuration(groupCount: nat): real
  {
    groupCount as real * 0.02 + 0.3
  }

  /** Every cell's 0.3 s tween ends within `TotalDuration`. */
  lemma TweensEndInTime(groupCount: nat, g: nat, c: nat, n: nat)
    requires g < groupCount && c < n
    ensures Delay(g, c, n) + 0.3 < TotalDuration(groupCount)
  {
  }

  /** A tween added to the timeline: the cell, its group and its start time. */
  datatype Tween = Tween(cell: CellDistance, group: nat, delay: real)

  function TweenCells(ts: seq<Tween>): (r: seq<CellDistance>)
    ensures |r| == |ts| && forall k :: 0 <= k < |ts| ==> r[k] == ts[k].cell
  {
    seq(|ts|, k requires 0 <= k < |ts| => ts[k].cell)
  }

  /** The nested `forEach` over the groups that fills the timeline: cells in
      group order, each starting inside its group's 0.01 s window. */
  method ScheduleTweens(groups: seq<seq<CellDistance>>) returns (tweens: seq<Tween>)
    ensures TweenCells(tweens) == Flatten(groups)
    ensures forall k :: 0 <= k < |tweens| ==> (tweens[k].group < |groups| &&
      0.02 * tweens[k].group as real <= tweens[k].delay < 0.02 * tweens[k].group as real + 0.01)
    ensures forall k :: 0 <= k < |tweens| ==> tweens[k].group < |groups| && tweens[k].cell in groups[tweens[k].group]
    ensures forall k, l :: 0 <= k < l < |tweens| ==> tweens[k].group <= tweens[l].group
  {
    tweens := [];
    var g := 0;
    while g < |groups|
      invariant 0 <= g <= |groups|
      invariant TweenCells(tweens) == Flatten(groups[..g])
      invariant forall k :: 0 <= k < |tweens| ==> (tweens[k].group < g &&
        0.02 * tweens[k].group as real <= tweens[k].delay < 0.02 * tweens[k].group as real + 0.01)
      invariant forall k, l :: 0 <= k < l < |tweens| ==> tweens[k].group <= tweens[l].group
      invariant forall k :: 0 <= k < |tweens| ==> tweens[k].cell in groups[tweens[k].group]
    {
      var group := groups[g];
      var c := 0;
      ghost var start := tweens;
      while c < |group|
        invariant 0 <= c <= |group|
        invariant TweenCells(tweens) == Flatten(groups[..g]) + group[..c]
        invariant |tweens| == |start| + c && tweens[..|start|] == start
        invariant forall k :: |start| <= k < |tweens| ==> tweens[k].group == g
        invariant forall k :: 0 <= k < |tweens| ==> (tweens[k].group <= g &&
          0.02 * tweens[k].group as real <= tweens[k].delay < 0.02 * tweens[k].group as real + 0.01)
        invariant forall k, l :: 0 <= k < l < |tweens| ==> tweens[k].group <= tweens[l].group
        invariant forall k :: 0 <= k < |tweens| ==> tweens[k].group <= g && tweens[k].cell in groups[tweens[k].group]
      {
        tweens := tweens + [Tween(group[c], g, Delay(g, c, |group|))];
        assert group[..c + 1] == group[..c] + [group[c]];
        c := c + 1;
      }
      assert group[..c] == group;
      assert groups[..g + 1] == groups[..g] + [group];
      FlattenSnoc(groups[..g], group);
      g := g + 1;
    }
    assert groups[..g] == groups;
  }

  /** A member of a group is a member of the flattened groups. */
  lemma {:induction false} InFlatten(groups: seq<seq<CellDistance>>, g: nat, x: CellDistance)
    requires g < |groups| && x in groups[g]
    ensures x in Flatten(groups)
    decreases |groups|
  {
    var n := |groups| - 1;
    if g < n {
      assert groups[..n][g] == groups[g];
      InFlatten(groups[..n], g, x);
    }
  }

  /** Outside in: when the groups spell out a farthest-first list, no cell of
      a later group is farther from the centre than a cell of an earlier one. */
  lemma {:induction false} LaterGroupsNearer(groups: seq<seq<CellDistance>>, g1: nat, g2: nat, x: CellDistance, y: CellDistance)
    requires FarthestFirst(Flatten(groups))
    requires g1 < g2 < |groups| && x in groups[g1] && y in groups[g2]
    ensures y.distance <= x.distance
    decreases |groups|
  {
    var n := |groups| - 1;
    var f := Flatten(groups[..n]);
    assert Flatten(groups) == f + groups[n];
    assert groups[..n][g1] == groups[g1];
    if g2 < n {
      assert groups[..n][g2] == groups[g2];
      forall i, j | 0 <= i < j < |f|
        ensures f[i].distance >= f[j].distance
      {
        assert f[i] == Flatten(groups)[i] && f[j] == Flatten(groups)[j];
      }
      LaterGroupsNearer(groups[..n], g1, g2, x, y);
    } else {
      InFlatten(groups[..n], g1, x);
      var i :| 0 <= i < |f| && f[i] == x;
      var j :| 0 <= j < |groups[n]| && groups[n][j] == y;
      assert Flatten(groups)[i] == x && Flatten(groups)[|f| + j] == y;
    }
  }

  predicate Distinct<T(==)>(s: seq<T>)
  {
    forall i, j :: 0 <= i < j < |s| ==> s[i] != s[j]
  }

  lemma {:induction false} DistinctCount<T>(s: seq<T>, x: T)
    requires Distinct(s)
    ensures multiset(s)[x] <= 1
    decreases |s|
  {
    if s != [] {
      assert s == [s[0]] + s[1..];
      DistinctCount(s[1..], x);
      if s[0] == x {
        forall k | 0 <= k < |s[1..]|
          ensures s[1..][k] != x
        {
          assert s[1..][k] == s[k + 1];
        }
        assert x !in s[1..];
      }
    }
  }

  /** A permutation of a list without repeats has no repeats. */
  lemma PermutationDistinct<T>(s: seq<T>, t: seq<T>)
    requires multiset(s) == multiset(t) && Distinct(t)
    ensures Distinct(s)
  {
    forall i, j | 0 <= i < j < |s|
      ensures s[i] != s[j]
    {
      DistinctCount(t, s[i]);
      assert s == s[..i] + [s[i]] + s[i + 1..j] + [s[j]] + s[j + 1..];
      assert multiset(s) == multiset(s[..i]) + multiset{s[i]} + multiset(s[i + 1..j]) + multiset{s[j]} + multiset(s[j + 1..]);
    }
  }

  /** The grid indices the tweens animate. */
  function TweenIndices(ts: seq<Tween>): set<nat>
  {
    set k | 0 <= k < |ts| :: ts[k].cell.index
  }

  /** Exactly one tween for each cell of an `n`-cell grid. */
  predicate OneTweenPerCell(ts: seq<Tween>, n: nat)
  {
    && |ts| == n
    && (forall k :: 0 <= k < |ts| ==> ts[k].cell.index < n)
    && (forall i :: 0 <= i < n ==> i in TweenIndices(ts))
    && (forall k, l :: 0 <= k < l < |ts| ==> ts[k].cell.index != ts[l].cell.index)
  }

  /** Every tween carries its cell's own column, row and distance to the
      centre of a `cols` x `rows` grid. */
  predicate MeasuredTweens(ts: seq<Tween>, cols: nat, rows: nat, sqrt: real -> real)
    requires cols > 0
  {
    forall k :: 0 <= k < |ts| ==>
      var i := ts[k].cell.index;
      ts[k].cell == CellDistance(i, ColOf(i, cols), RowOf(i, cols),
                                 sqrt(SquaredDistance(ColOf(i, cols), RowOf(i, cols), cols, rows)))
  }

  /** No tween of a later group animates a cell farther from the centre than
      a tween of an earlier group. */
  predicate OutsideIn(ts: seq<Tween>)
  {
    forall k, l :: 0 <= k < |ts| && 0 <= l < |ts| && ts[k].group < ts[l].group ==>
      ts[l].cell.distance <= ts[k].cell.distance
  }

  /** Tweens over a permutation of the measured cells animate each cell once. */
  lemma TweensOnePerCell(cds: seq<CellDistance>, tweens: seq<Tween>)
    requires multiset(TweenCells(tweens)) == multiset(cds)
    requires forall i :: 0 <= i < |cds| ==> cds[i].index == i
    ensures OneTweenPerCell(tweens, |cds|)
  {
    var cells := TweenCells(tweens);
    assert |cells| == |cds|;
    forall k | 0 <= k < |tweens|
      ensures tweens[k].cell.index < |cds|
    {
      assert cells[k] in multiset(cds);
    }
    forall i | 0 <= i < |cds|
      ensures i in TweenIndices(tweens)
    {
      assert cds[i] in multiset(cells);
      var k :| 0 <= k < |cells| && cells[k] == cds[i];
    }
    forall i, j | 0 <= i < j < |cds|
      ensures cds[i] != cds[j]
    {
    }
    PermutationDistinct(cells, cds);
    forall k, l | 0 <= k < l < |tweens|
      ensures tweens[k].cell.index != tweens[l].cell.index
    {
      assert cells[k] != cells[l];
      assert cells[k] in multiset(cds) && cells[l] in multiset(cds);
    }
  }

  /** Tweens over a permutation of the measured cells carry the measurements. */
  lemma TweensMeasured(cols: nat, rows: nat, sqrt: real -> real, cds: seq<CellDistance>, tweens: seq<Tween>)
    requires cols > 0
    requires multiset(TweenCells(tweens)) == multiset(cds)
    requires forall i :: 0 <= i < |cds| ==>
      cds[i].index == i && cds[i].col == ColOf(i, cols) && cds[i].row == RowOf(i, cols) &&
      cds[i].distance == sqrt(SquaredDistance(cds[i].col, cds[i].row, cols, rows))
    ensures MeasuredTweens(tweens, cols, rows, sqrt)
  {
    forall k | 0 <= k < |tweens|
      ensures tweens[k].cell in multiset(cds)
    {
      assert TweenCells(tweens)[k] == tweens[k].cell;
    }
  }

  /** Tweens scheduled over groups shuffled from a farthest-first grouping
      go from the outside in. */
  lemma TweensOutsideIn(groups: seq<seq<CellDistance>>, shuffled: seq<seq<CellDistance>>, tweens: seq<Tween>)
    requires FarthestFirst(Flatten(groups))
    requires |shuffled| == |groups| && forall g :: 0 <= g < |groups| ==> multiset(shuffled[g]) == multiset(groups[g])
    requires forall k :: 0 <= k < |tweens| ==> tweens[k].group < |shuffled| && tweens[k].cell in shuffled[tweens[k].group]
    ensures OutsideIn(tweens)
  {
    forall k, l | 0 <= k < |tweens| && 0 <= l < |tweens| && tweens[k].group < tweens[l].group
      ensures tweens[l].cell.distance <= tweens[k].cell.distance
    {
      var gk, gl := tweens[k].group, tweens[l].group;
      assert tweens[k].cell in multiset(shuffled[gk]);
      assert tweens[l].cell in multiset(shuffled[gl]);
      LaterGroupsNearer(groups, gk, gl, tweens[k].cell, tweens[l].cell);
    }
  }

  /** What the effect does. */
  datatype Outcome =
    | NotMounted                        // container or grid element missing
    | NoCells                           // `cellDistances[0]` is undefined: the effect throws
    | Scheduled(tweens: seq<Tween>, groupCount: nat)

  /** The whole effect for a container of `width` x `height` pixels: every
      cell of the grid gets exactly one tween, carrying its own position and
      distance; a later group is never farther from the centre than an
      earlier one, and starts later. */
  method Animate(hasContainer: bool, hasGrid: bool, width: nat, height: nat, gridSize: nat,
                 sqrt: real -> real, pick: (nat, nat) -> nat) returns (outcome: Outcome)
    requires gridSize > 0
    ensures !hasContainer || !hasGrid <==> outcome == NotMounted
    ensures outcome == NoCells <==> (hasContainer && hasGrid &&
      (GridDims(width, height, gridSize).cols == 0 || GridDims(width, height, gridSize).rows == 0))
    ensures outcome.Scheduled? ==>
      var d := GridDims(width, height, gridSize);
      var ts := outcome.tweens;
      && d.cols > 0
      && OneTweenPerCell(ts, d.cols * d.rows)
      && MeasuredTweens(ts, d.cols, d.rows, sqrt)
      && OutsideIn(ts)
      && (forall k :: 0 <= k < |ts| ==> ts[k].group < outcome.groupCount)
      && (forall k, l :: 0 <= k < l < |ts| ==> ts[k].group <= ts[l].group)
      && (forall k :: 0 <= k < |ts| ==> 0.02 * ts[k].group as real <= ts[k].delay < 0.02 * ts[k].group as real + 0.01)
  {
    if !hasContainer || !hasGrid {
      return NotMounted;
    }
    var d := GridDims(width, height, gridSize);
    if d.cols == 0 {
      return NoCells;
    }
    var cds := MeasureCells(d.cols, d.rows, sqrt);
    var a := new CellDistance[|cds|](k requires 0 <= k < |cds| => cds[k]);
    assert a[..] == cds;
    SortFarthestFirst(a);
    var groups := GroupByDistance(a[..]);
    if groups.None? {
      assert d.cols * d.rows == 0;
      return NoCells;
    }
    var shuffled := ShuffleGroups(groups.value, pick);
    ShuffleKeepsGroups(groups.value, pick);
    var tweens := ScheduleTweens(shuffled);
    assert multiset(TweenCells(tweens)) == multiset(cds);
    TweensOnePerCell(cds, tweens);
    TweensMeasured(d.cols, d.rows, sqrt, cds, tweens);
    TweensOutsideIn(groups.value, shuffled, tweens);
    outcome := Scheduled(tweens, |shuffled|);
  }
}
