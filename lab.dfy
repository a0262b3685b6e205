/** The works slider of the lab page. The list of works is the static data with
    each image path resolved against the bundled image modules, keeping only the
    works whose image exists. `goToSlide` animates the current work out and, when
    that animation completes, switches to the requested index; an effect then
    copies the new index into `indexRef`, which the wheel handlers read. */
module Lab {
  import opened Wrappers

  datatype Image = Image(src: string)
  datatype WorkData = WorkData(name: string, image: string, url: string, tags: seq<string>)
  datatype Work = Work(data: WorkData, imageObj: Image)

  /** `path.replace(/^~/, "/src")`. */
  function CleanPath(path: string): (r: string)
    ensures |path| > 0 && path[0] == '~' ==> r == "/src" + path[1..]
    ensures !(|path| > 0 && path[0] == '~') ==> r == path
  {
    if |path| > 0 && path[0] == '~' then "/src" + path[1..] else path
  }

  /** Only a leading "~" is rewritten; a "~" anywhere else stays. */
  lemma CleanPathOnlyLeading(path: string, k: nat)
    requires 0 < k < |path|
    ensures |path| > 0 && path[0] == '~' ==> CleanPath(path)[k + 3] == path[k]
    ensures !(|path| > 0 && path[0] == '~') ==> CleanPath(path)[k] == path[k]
  {
  }

  /** `getImage`: the bundled module for the cleaned path, or null. */
  function GetImage(images: map<string, Image>, path: string): (r: Option<Image>)
    ensures r.Some? <==> CleanPath(path) in images
    ensures r.Some? ==> r.value == images[CleanPath(path)]
  {
    if CleanPath(path) in images then Some(images[CleanPath(path)]) else None
  }

  /** `worksData.map(...).filter((w) => w.imageObj)`. */
  function Works(images: map<string, Image>, data: seq<WorkData>): (ws: seq<Work>)
    ensures |ws| <= |data|
    ensures forall k :: 0 <= k < |ws| ==> GetImage(images, ws[k].data.image) == Some(ws[k].imageObj)
  {
    if data == [] then []
    else
      var rest := Works(images, data[1..]);
      match GetImage(images, data[0].image)
      case Some(img) => [Work(data[0], img)] + rest
      case None => rest
  }

  /** The filter keeps order: the works of a concatenation are the concatenation
      of the works. */
  lemma {:induction false} WorksConcat(images: map<string, Image>, a: seq<WorkData>, b: seq<WorkData>)
    ensures Works(images, a + b) == Works(images, a) + Works(images, b)
  {
    if a == [] {
      assert a + b == b;
    } else {
      assert (a + b)[0] == a[0] && (a + b)[1..] == a[1..] + b;
      WorksConcat(images, a[1..], b);
    }
  }

  /** A single work is kept, with its resolved image, exactly when its image resolves. */
  lemma WorksSingle(images: map<string, Image>, d: WorkData)
    ensures GetImage(images, d.image).Some? ==> Works(images, [d]) == [Work(d, GetImage(images, d.image).value)]
    ensures GetImage(images, d.image).None? ==> Works(images, [d]) == []
  {
    assert [d][1..] == [];
  }

  datatype Slider = Slider(
    count: nat,              // works.length
    currentIndex: int,       // React state
    indexRef: int,           // copy of currentIndex made by the effect
    isAnimating: bool,       // ref
    pending: Option<int>,    // the exit timeline, with the index its onComplete applies
    direction: int)

  const Start := Slider(0, 0, 0, false, None, 0)

  function Initial(count: nat): Slider
  {
    Start.(count := count)
  }

  predicate Accepts(s: Slider, index: int)
  {
    !s.isAnimating && 0 <= index < s.count && index != s.indexRef
  }

  /** `goToSlide(index)`. */
  function RequestSlide(s: Slider, index: int): Slider
  {
    if !Accepts(s, index) then s
    else s.(isAnimating := true, direction := if index > s.indexRef then 1 else -1, pending := Some(index))
  }

  /** The exit timeline's `onComplete`. */
  function CompleteExit(s: Slider): Slider
  {
    match s.pending
    case None => s
    case Some(index) => s.(currentIndex := index, isAnimating := false, pending := None)
  }

  /** The effect on `currentIndex`. */
  function SyncRef(s: Slider): Slider
  {
    s.(indexRef := s.currentIndex)
  }

  function WheelUp(s: Slider): Slider
  {
    RequestSlide(s, s.indexRef - 1)
  }

  function WheelDown(s: Slider): Slider
  {
    RequestSlide(s, s.indexRef + 1)
  }

  datatype Event = Go(index: int) | Up | Down | Completed | Synced

  function Step(s: Slider, e: Event): Slider
  {
    match e
    case Go(index) => RequestSlide(s, index)
    case Up => WheelUp(s)
    case Down => WheelDown(s)
    case Completed => CompleteExit(s)
    case Synced => SyncRef(s)
  }

  function Run(s: Slider, evs: seq<Event>): Slider
    decreases |evs|
  {
    if evs == [] then s else Run(Step(s, evs[0]), evs[1..])
  }

  /** Indices stay on the list: with no works both stay 0 and nothing is ever
      accepted; otherwise both lie in `[0, count)`. The lock is held exactly while
      an exit timeline is pending. */
  predicate Valid(s: Slider)
  {
    && (s.count == 0 ==> s.currentIndex == 0 && s.indexRef == 0)
    && (s.count > 0 ==> 0 <= s.currentIndex < s.count && 0 <= s.indexRef < s.count)
    && (s.isAnimating <==> s.pending.Some?)
    && (s.pending.Some? ==> 0 <= s.pending.value < s.count)
  }

  lemma StepValid(s: Slider, e: Event)
    requires Valid(s)
    ensures Valid(Step(s, e)) && Step(s, e).count == s.count
  {
  }

  lemma {:induction false} RunValid(s: Slider, evs: seq<Event>)
    requires Valid(s)
    ensures Valid(Run(s, evs)) && Run(s, evs).count == s.count
    decreases |evs|
  {
    if evs != [] {
      StepValid(s, evs[0]);
      RunValid(Step(s, evs[0]), evs[1..]);
    }
  }

  /** Starting at 0, every reachable state keeps the current index on the list. */
  lemma IndexAlwaysInRange(count: nat, evs: seq<Event>)
    requires count > 0
    ensures 0 <= Run(Initial(count), evs).currentIndex < count
  {
    assert Valid(Initial(count));
    RunValid(Initial(count), evs);
  }

  /** Rejected requests change nothing; an accepted one locks and records its
      direction. */
  lemma GoToSlideGuards(s: Slider, index: int)
    ensures !Accepts(s, index) ==> RequestSlide(s, index) == s
    ensures Accepts(s, index) ==>
      (RequestSlide(s, index).isAnimating &&
       RequestSlide(s, index).direction == (if index > s.indexRef then 1 else -1) &&
       RequestSlide(s, index).currentIndex == s.currentIndex)
  {
  }

  /** A second request issued before the first completes is dropped, so only the
      first accepted target is applied. */
  lemma OnlyFirstTargetApplies(s: Slider, i: int, j: int)
    requires Accepts(s, i)
    ensures CompleteExit(RequestSlide(RequestSlide(s, i), j)).currentIndex == i
    ensures !CompleteExit(RequestSlide(RequestSlide(s, i), j)).isAnimating
  {
  }

  /** At either end of the list the wheel request in that direction is a no-op. */
  lemma WheelAtEnds(s: Slider)
    requires Valid(s) && s.count > 0
    ensures s.indexRef == 0 ==> WheelUp(s) == s
    ensures s.indexRef == s.count - 1 ==> WheelDown(s) == s
  {
  }

  /** The work shown: `works[currentIndex]`, or nothing when out of range. */
  function CurrentWork(works: seq<Work>, index: int): (w: Option<Work>)
    ensures w.Some? <==> 0 <= index < |works|
    ensures w.Some? ==> w.value == works[index]
  {
    if 0 <= index < |works| then Some(works[index]) else None
  }

  class LabPage {
    const count: nat
    var currentIndex: int
    var indexRef: int
    var isAnimating: bool
    var pending: Option<int>
    var direction: int

    function State(): Slider
      reads this
    {
      Slider(count, currentIndex, indexRef, isAnimating, pending, direction)
    }

    constructor (worksLength: nat)
      ensures State() == Initial(worksLength) && Valid(State())
    {
      count := worksLength;
      currentIndex, indexRef := 0, 0;
      isAnimating := false;
      pending := None;
      direction := 0;
    }

    method GoToSlide(index: int)
      modifies this
      ensures State() == RequestSlide(old(State()), index)
    {
      if isAnimating || index < 0 || index >= count || index == indexRef {
        return;
      }
      isAnimating := true;
      direction := if index > indexRef then 1 else -1;
      pending := Some(index);
    }

    method ExitComplete()
      modifies this
      ensures State() == CompleteExit(old(State()))
    {
      if pending.Some? {
        currentIndex := pending.value;
        isAnimating := false;
        pending := None;
      }
    }

    method SyncIndexRef()
      modifies this
      ensures State() == SyncRef(old(State()))
    {
      indexRef := currentIndex;
    }

    method OnUp()
      modifies this
      ensures State() == WheelUp(old(State()))
    {
      GoToSlide(indexRef - 1);
    }

    method OnDown()
      modifies this
      ensures State() == WheelDown(old(State()))
    {
      GoToSlide(indexRef + 1);
    }
  }
}
