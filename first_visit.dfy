/** `useFirstVisitLoading`: the one-shot loading sequence of a first visit. The
    document marks a first visit with the `data-first-visit` attribute on
    <html>; the hook plays the loader's timeline and, when it completes, records
    `hasVisited` in session storage, removes the attribute and hides the overlay.
    The DOM nodes the hook looks up are given as present or missing; timeline
    completion and effect cleanup are explicit events. */
module FirstVisit {
  import opened Wrappers

  datatype Timeline = NoTimeline | Running | Completed | Killed

  datatype Nodes = Nodes(overlay: bool, bg: bool, text: bool, line: bool, wrapper: bool)

  datatype LoaderState = LoaderState(
    firstVisitAttr: bool,        // `data-first-visit` on <html>
    nodes: Nodes,
    overlayHidden: bool,         // loading-overlay style.display == "none"
    wrapperShown: bool,          // smooth-wrapper set to opacity 1 without animation
    wrapperFadedIn: bool,        // smooth-wrapper fade-in started
    hasVisited: Option<string>,  // sessionStorage "hasVisited"
    timeline: Timeline)

  function Initial(firstVisitAttr: bool, nodes: Nodes, hasVisited: Option<string>): LoaderState
  {
    LoaderState(firstVisitAttr, nodes, false, false, false, hasVisited, NoTimeline)
  }

  predicate LoaderNodesPresent(n: Nodes)
  {
    n.overlay && n.bg && n.text && n.line
  }

  /** The effect body run on mount. */
  function OnMount(s: LoaderState): LoaderState
  {
    if !s.firstVisitAttr then
      s.(overlayHidden := s.overlayHidden || s.nodes.overlay,
         wrapperShown := s.wrapperShown || s.nodes.wrapper)
    else if !LoaderNodesPresent(s.nodes) then s
    else s.(timeline := Running)
  }

  /** The timeline's `onComplete`; a killed timeline never completes. */
  function OnComplete(s: LoaderState): LoaderState
  {
    if s.timeline != Running then s
    else s.(hasVisited := Some("true"), firstVisitAttr := false, overlayHidden := true,
            wrapperFadedIn := s.wrapperFadedIn || s.nodes.wrapper, timeline := Completed)
  }

  /** The effect's cleanup: `tl.kill()`. */
  function OnCleanup(s: LoaderState): LoaderState
  {
    if s.timeline == Running then s.(timeline := Killed) else s
  }

  /** Whether the visit is a first one is read from the attribute alone: the
      session flag does not influence the mount. */
  lemma DecidedByAttribute(s: LoaderState, flag: Option<string>)
    ensures OnMount(s.(hasVisited := flag)) == OnMount(s).(hasVisited := flag)
  {
  }

  /** A repeat visit hides the overlay, shows the wrapper and starts nothing. */
  lemma RepeatVisit(s: LoaderState)
    requires !s.firstVisitAttr && s.timeline == NoTimeline
    ensures var t := OnMount(s);
      t.timeline == NoTimeline && t.hasVisited == s.hasVisited &&
      (s.nodes.overlay ==> t.overlayHidden) && (s.nodes.wrapper ==> t.wrapperShown)
  {
  }

  /** A first visit with a loader node missing does nothing at all: the flag is
      not written and the attribute stays. */
  lemma MissingNodeDoesNothing(s: LoaderState)
    requires s.firstVisitAttr && !LoaderNodesPresent(s.nodes)
    ensures OnMount(s) == s
  {
  }

  /** A first visit with all loader nodes plays the timeline, and its completion
      records the visit, removes the attribute, hides the overlay and fades the
      wrapper in exactly when it exists. A later mount then takes the repeat path. */
  lemma FirstVisitCompletes(s: LoaderState)
    requires s.firstVisitAttr && LoaderNodesPresent(s.nodes) && s.timeline == NoTimeline
    ensures var t := OnComplete(OnMount(s));
      t.hasVisited == Some("true") && !t.firstVisitAttr && t.overlayHidden &&
      t.wrapperFadedIn == (s.wrapperFadedIn || s.nodes.wrapper) &&
      OnMount(t.(timeline := NoTimeline)).timeline == NoTimeline
  {
  }

  /** After cleanup the completion actions never run. */
  lemma CleanupPreventsCompletion(s: LoaderState)
    ensures OnComplete(OnCleanup(s)) == OnCleanup(s)
    ensures s.timeline == Running ==> OnCleanup(s).hasVisited == s.hasVisited && OnCleanup(s).firstVisitAttr == s.firstVisitAttr
  {
  }

  datatype Event = Mounted | TimelineDone | Unmounted

  function Step(s: LoaderState, e: Event): LoaderState
  {
    match e
    case Mounted => OnMount(s)
    case TimelineDone => OnComplete(s)
    case Unmounted => OnCleanup(s)
  }

  function Run(s: LoaderState, evs: seq<Event>): LoaderState
    decreases |evs|
  {
    if evs == [] then s else Run(Step(s, evs[0]), evs[1..])
  }

  /** The session flag is written only by a completed timeline: a run either
      leaves it untouched or ends with it recorded and the attribute gone. */
  lemma {:induction false} FlagOnlyFromCompletion(s: LoaderState, evs: seq<Event>)
    requires s.timeline != Completed
    ensures var t := Run(s, evs);
      t.hasVisited == s.hasVisited || (t.hasVisited == Some("true") && t.timeline == Completed && !t.firstVisitAttr)
    decreases |evs|
  {
    if evs != [] {
      var s' := Step(s, evs[0]);
      if s'.timeline == Completed {
        CompletedIsFinal(s', evs[1..]);
      } else {
        FlagOnlyFromCompletion(s', evs[1..]);
      }
    }
  }

  lemma {:induction false} CompletedIsFinal(s: LoaderState, evs: seq<Event>)
    requires s.timeline == Completed && !s.firstVisitAttr && s.hasVisited == Some("true")
    ensures var t := Run(s, evs); t.timeline == Completed && !t.firstVisitAttr && t.hasVisited == Some("true")
    decreases |evs|
  {
    if evs != [] {
      CompletedIsFinal(Step(s, evs[0]), evs[1..]);
    }
  }

  class FirstVisitLoader {
    var firstVisitAttr: bool
    const nodes: Nodes
    var overlayHidden: bool
    var wrapperShown: bool
    var wrapperFadedIn: bool
    var hasVisited: Option<string>
    var timeline: Timeline

    function State(): LoaderState
      reads this
    {
      LoaderState(firstVisitAttr, nodes, overlayHidden, wrapperShown, wrapperFadedIn, hasVisited, timeline)
    }

    constructor (hasAttr: bool, present: Nodes, storedFlag: Option<string>)
      ensures State() == Initial(hasAttr, present, storedFlag)
    {
      firstVisitAttr := hasAttr;
      nodes := present;
      overlayHidden, wrapperShown, wrapperFadedIn := false, false, false;
      hasVisited := storedFlag;
      timeline := NoTimeline;
    }

    method Mount()
      modifies this
      ensures State() == OnMount(old(State()))
    {
      if !firstVisitAttr {
        if nodes.overlay {
          overlayHidden := true;
        }
        if nodes.wrapper {
          wrapperShown := true;
        }
        return;
      }
      if !nodes.overlay || !nodes.bg || !nodes.text || !nodes.line {
        return;
      }
      timeline := Running;
    }

    method OnTimelineComplete()
      modifies this
      ensures State() == OnComplete(old(State()))
    {
      if timeline != Running {
        return;
      }
      hasVisited := Some("true");
      firstVisitAttr := false;
      overlayHidden := true;
      if nodes.wrapper {
        wrapperFadedIn := true;
      }
      timeline := Completed;
    }

    method Cleanup()
      modifies this
      ensures State() == OnCleanup(old(State()))
    {
      if timeline == Running {
        timeline := Killed;
      }
    }
  }
}
