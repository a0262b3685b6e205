/** The wheel-driven vertical list shared by the Notes and Activity pages:
    items 200 px apart, scrolled by half the wheel delta and clamped to the
    list, each item scaled and faded by its distance from the container's
    centre. JavaScript's `x / 0` is written out: a positive distance over a
    zero half-height is `Infinity` (the floors apply), and `0 / 0` is `NaN`,
    modelled as `None`. */
module WheelList {
  import opened Wrappers

  const ItemHeight: real := 200.0

  function Max(a: real, b: real): real { if a >= b then a else b }
  function Min(a: real, b: real): real { if a <= b then a else b }
  function Abs(x: real): real { if x < 0.0 then -x else x }

  /** `Math.max(0, (n - 1) * itemHeight)`. */
  function MaxScroll(n: nat): (m: real)
    ensures m >= 0.0
    ensures n >= 1 ==> m == (n - 1) as real * ItemHeight
    ensures n <= 1 ==> m == 0.0
  {
    Max(0.0, (n as real - 1.0) * ItemHeight)
  }

  /** `handleWheel`: the new scroll position. */
  function Clamp(scroll: real, deltaY: real, maxScroll: real): (r: real)
    requires maxScroll >= 0.0
    ensures 0.0 <= r <= maxScroll
    ensures 0.0 <= scroll + deltaY * 0.5 <= maxScroll ==> r == scroll + deltaY * 0.5
    ensures scroll + deltaY * 0.5 < 0.0 ==> r == 0.0
    ensures scroll + deltaY * 0.5 > maxScroll ==> r == maxScroll
  {
    Max(0.0, Min(maxScroll, scroll + deltaY * 0.5))
  }

  /** `clientHeight / 2 - itemHeight / 2`, read once when the effect runs:
      puts item 0 at the centre of a container of that height. */
  function BaseOffset(clientHeight: real): real
  {
    clientHeight / 2.0 - ItemHeight / 2.0
  }

  /** Where item `i` is placed before the first update. */
  function InitialY(i: nat, baseOffset: real): real
  {
    i as real * ItemHeight + baseOffset
  }

  /** Where item `i` is moved for a scroll position. */
  function TargetY(i: nat, scroll: real, baseOffset: real): real
  {
    i as real * ItemHeight - scroll + baseOffset
  }

  /** `Math.abs(centerY - (targetY + itemHeight / 2))`, with `centerY` from
      the container's current height. */
  function DistanceFromCenter(i: nat, scroll: real, baseOffset: real, clientHeight: real): real
  {
    Abs(clientHeight / 2.0 - (TargetY(i, scroll, baseOffset) + ItemHeight / 2.0))
  }

  /** Consecutive items stay 200 px apart, and scrolling moves every item by the same amount. */
  lemma Spacing(i: nat, scroll: real, baseOffset: real)
    ensures TargetY(i + 1, scroll, baseOffset) - TargetY(i, scroll, baseOffset) == ItemHeight
    ensures TargetY(i, 0.0, baseOffset) == InitialY(i, baseOffset)
    ensures TargetY(i, scroll, baseOffset) == InitialY(i, baseOffset) - scroll
  {
  }

  /** The distance from the centre is the distance of the scroll from the
      item's slot, shifted by half of any change of the container's height
      since the offset was read; with the height unchanged it is exactly the
      scroll's distance from the slot. */
  lemma DistanceIsScrollOffset(i: nat, scroll: real, attachHeight: real, clientHeight: real)
    ensures DistanceFromCenter(i, scroll, BaseOffset(attachHeight), clientHeight)
      == Abs(scroll - i as real * ItemHeight + (clientHeight - attachHeight) / 2.0)
    ensures clientHeight == attachHeight ==>
      DistanceFromCenter(i, scroll, BaseOffset(attachHeight), clientHeight) == Abs(scroll - i as real * ItemHeight)
  {
  }

  /** `Math.max(floor, 1 - (distance / maxDistance) * rate)`, `None` when it is `NaN`. */
  function Emphasis(distance: real, maxDistance: real, rate: real, floor: real): Option<real>
    requires distance >= 0.0 && maxDistance >= 0.0
  {
    if maxDistance > 0.0 then Some(Max(floor, 1.0 - (distance / maxDistance) * rate))
    else if distance > 0.0 then Some(floor)
    else None
  }

  function Scale(distance: real, maxDistance: real): Option<real>
    requires distance >= 0.0 && maxDistance >= 0.0
  {
    Emphasis(distance, maxDistance, 0.15, 0.85)
  }

  function Opacity(distance: real, maxDistance: real): Option<real>
    requires distance >= 0.0 && maxDistance >= 0.0
  {
    Emphasis(distance, maxDistance, 0.6, 0.4)
  }

  /** The floors hold, the centred item is at full size and opacity, and the
      result is `NaN` only for the centred item of a zero-height container. */
  lemma EmphasisBounds(distance: real, maxDistance: real, rate: real, floor: real)
    requires distance >= 0.0 && maxDistance >= 0.0 && 0.0 <= rate && floor <= 1.0
    ensures Emphasis(distance, maxDistance, rate, floor).None? <==> maxDistance == 0.0 && distance == 0.0
    ensures Emphasis(distance, maxDistance, rate, floor).Some? ==>
      floor <= Emphasis(distance, maxDistance, rate, floor).value <= 1.0
    ensures maxDistance > 0.0 && distance == 0.0 ==> Emphasis(distance, maxDistance, rate, floor) == Some(1.0)
  {
    if maxDistance > 0.0 {
      assert distance / maxDistance >= 0.0;
      assert (distance / maxDistance) * rate >= 0.0;
    }
  }

  /** Items nearer the centre are never smaller or fainter. */
  lemma EmphasisMonotone(d1: real, d2: real, maxDistance: real, rate: real, floor: real)
    requires 0.0 <= d1 <= d2 && maxDistance > 0.0 && rate >= 0.0
    ensures Emphasis(d2, maxDistance, rate, floor).value <= Emphasis(d1, maxDistance, rate, floor).value
  {
    assert d1 / maxDistance <= d2 / maxDistance;
    assert (d1 / maxDistance) * rate <= (d2 / maxDistance) * rate;
  }

  /** What `updateItems` sends item `i` to. */
  datatype Layout = Layout(y: real, scale: Option<real>, opacity: Option<real>)

  function LayoutOf(i: nat, scroll: real, baseOffset: real, clientHeight: real): Layout
    requires clientHeight >= 0.0
  {
    var d := DistanceFromCenter(i, scroll, baseOffset, clientHeight);
    Layout(TargetY(i, scroll, baseOffset), Scale(d, clientHeight / 2.0), Opacity(d, clientHeight / 2.0))
  }

  /** `updateItems`: one tween target per rendered item. */
  method UpdateItems(count: nat, scroll: real, baseOffset: real, clientHeight: real) returns (targets: seq<Layout>)
    requires clientHeight >= 0.0
    ensures |targets| == count
    ensures forall i :: 0 <= i < count ==> targets[i] == LayoutOf(i, scroll, baseOffset, clientHeight)
  {
    targets := [];
    var i := 0;
    while i < count
      invariant 0 <= i <= count && |targets| == i
      invariant forall k :: 0 <= k < i ==> targets[k] == LayoutOf(k, scroll, baseOffset, clientHeight)
    {
      targets := targets + [LayoutOf(i, scroll, baseOffset, clientHeight)];
      i := i + 1;
    }
  }

  datatype ScrollState = ScrollState(
    count: nat,             // rendered items
    baseOffset: real,       // read from the container's height when the effect ran
    scroll: real,           // scrollPositionRef.current
    attached: bool,         // the wheel listener is registered
    targets: seq<Layout>)   // the latest tween targets

  function Targets(count: nat, scroll: real, baseOffset: real, clientHeight: real): (r: seq<Layout>)
    requires clientHeight >= 0.0
    ensures |r| == count
  {
    seq(count, i requires 0 <= i < count => LayoutOf(i, scroll, baseOffset, clientHeight))
  }

  /** The layout effect: read the offset, place the items, register the
      listener and update once. Notes resets the scroll position first;
      Activity keeps it. */
  function OnAttach(s: ScrollState, count: nat, clientHeight: real, resetScroll: bool): ScrollState
    requires clientHeight >= 0.0
  {
    var scroll := if resetScroll then 0.0 else s.scroll;
    var baseOffset := BaseOffset(clientHeight);
    ScrollState(count, baseOffset, scroll, true, Targets(count, scroll, baseOffset, clientHeight))
  }

  /** `handleWheel`, with the container's height as it is at that event. */
  function OnWheel(s: ScrollState, deltaY: real, clientHeight: real): ScrollState
    requires clientHeight >= 0.0
  {
    if !s.attached then s
    else
      var scroll := Clamp(s.scroll, deltaY, MaxScroll(s.count));
      s.(scroll := scroll, targets := Targets(s.count, scroll, s.baseOffset, clientHeight))
  }

  function OnDetach(s: ScrollState): ScrollState
  {
    s.(attached := false)
  }

  /** After a wheel event the position lies in `[0, maxScroll]`, the offset
      read at attach time is kept, and the targets follow the position. */
  lemma WheelStaysInRange(s: ScrollState, deltaY: real, clientHeight: real)
    requires clientHeight >= 0.0 && s.attached
    ensures 0.0 <= OnWheel(s, deltaY, clientHeight).scroll <= MaxScroll(s.count)
    ensures OnWheel(s, deltaY, clientHeight).baseOffset == s.baseOffset
    ensures OnWheel(s, deltaY, clientHeight).targets
      == Targets(s.count, OnWheel(s, deltaY, clientHeight).scroll, s.baseOffset, clientHeight)
  {
  }

  /** Scrolling to the end moves the last item to where item 0 was first
      placed, which is the centre while the container keeps its height. */
  lemma LastItemReachable(s: ScrollState, attachHeight: real, clientHeight: real)
    requires clientHeight >= 0.0 && s.attached && s.count >= 1 && s.baseOffset == BaseOffset(attachHeight)
    ensures var t := OnWheel(s, 2.0 * (MaxScroll(s.count) - s.scroll) + 1.0, clientHeight);
      && t.scroll == MaxScroll(s.count)
      && TargetY(s.count - 1, t.scroll, s.baseOffset) == InitialY(0, s.baseOffset)
      && (clientHeight == attachHeight ==> DistanceFromCenter(s.count - 1, t.scroll, s.baseOffset, clientHeight) == 0.0)
  {
  }

  /** A position kept by attaching without a reset may exceed the new range:
      the next wheel event brings it back. */
  lemma KeptScrollMayExceedRange()
    ensures var s := OnAttach(ScrollState(3, 100.0, 400.0, true, []), 1, 400.0, false);
      s.scroll == 400.0 && MaxScroll(1) == 0.0 && OnWheel(s, 0.0, 400.0).scroll == 0.0
  {
  }

  class Scroller {
    var count: nat
    var baseOffset: real
    var scroll: real
    var attached: bool
    var targets: seq<Layout>

    function State(): ScrollState
      reads this
    {
      ScrollState(count, baseOffset, scroll, attached, targets)
    }

    constructor ()
      ensures State() == ScrollState(0, 0.0, 0.0, false, [])
    {
      count, baseOffset, scroll, attached, targets := 0, 0.0, 0.0, false, [];
    }

    method Attach(n: nat, height: real, resetScroll: bool)
      requires height >= 0.0
      modifies this
      ensures State() == OnAttach(old(State()), n, height, resetScroll)
    {
      if resetScroll {
        scroll := 0.0;
      }
      count, baseOffset, attached := n, height / 2.0 - ItemHeight / 2.0, true;
      targets := UpdateItems(n, scroll, baseOffset, height);
    }

    method Wheel(deltaY: real, height: real)
      requires height >= 0.0
      modifies this
      ensures State() == OnWheel(old(State()), deltaY, height)
    {
      if !attached {
        return;
      }
      scroll := Max(0.0, Min(MaxScroll(count), scroll + deltaY * 0.5));
      targets := UpdateItems(count, scroll, baseOffset, height);
    }

    method Detach()
      modifies this
      ensures State() == OnDetach(old(State()))
    {
      attached := false;
    }
  }
}
