/** `PageTransitionProvider`: a full-page transition between documents. An
    accepted `navigateTo` locks the provider, marks the session so the next
    document plays an entry animation, and fades the content out; only when the
    fade-out completes does the browser leave for the new url. The
    `pageTransition` session-storage key and the `data-page-entry` and
    `data-first-visit` attributes of the root element are fields of the state;
    animation completion is an explicit event. */
module PageTransition {
  import opened Wrappers

  const FlagKey := "pageTransition"

  /** `getIsPageEntry`: no window means no entry; otherwise the session flag must read "true". */
  function GetIsPageEntry(hasWindow: bool, flag: Option<string>): (entry: bool)
    ensures entry <==> hasWindow && flag == Some("true")
  {
    if !hasWindow then false else flag == Some("true")
  }

  datatype TransitionState = TransitionState(
    isPageEntry: bool,           // decided once, before the first render
    contentMounted: bool,        // `contentRef.current` is set
    flag: Option<string>,        // sessionStorage "pageTransition"
    pageEntryAttr: bool,         // `data-page-entry` on <html>
    firstVisitAttr: bool,        // `data-first-visit` on <html>
    entryAnimated: bool,         // the fade-in of an entry was started
    forcedVisible: bool,         // content set to opacity 1 without animation
    isAnimating: bool,
    pathname: string,            // window.location.pathname
    exitTween: Option<string>,   // a running fade-out, with the url it leaves for
    leftFor: Option<string>)     // window.location.href was assigned this url

  function Initial(hasWindow: bool, flag: Option<string>, pageEntryAttr: bool, firstVisitAttr: bool,
                   pathname: string, contentMounted: bool): TransitionState
  {
    TransitionState(GetIsPageEntry(hasWindow, flag), contentMounted, flag, pageEntryAttr, firstVisitAttr,
                    false, false, false, pathname, None, None)
  }

  /** The layout effect run on mount. */
  function OnMount(s: TransitionState): TransitionState
  {
    if !s.contentMounted then s
    else if s.isPageEntry then s.(flag := None, pageEntryAttr := false, entryAnimated := true)
    else if !s.firstVisitAttr then s.(forcedVisible := true)
    else s
  }

  /** `navigateTo(url)`. */
  function OnNavigate(s: TransitionState, url: string): TransitionState
  {
    if s.isAnimating || !s.contentMounted then s
    else if s.pathname == url then s
    else s.(isAnimating := true, flag := Some("true"), exitTween := Some(url))
  }

  /** The fade-out's `onComplete`: leave for the url. `isAnimating` is never reset:
      the document is being replaced. */
  function OnExitComplete(s: TransitionState): TransitionState
  {
    match s.exitTween
    case None => s
    case Some(url) => s.(exitTween := None, leftFor := Some(url))
  }

  predicate Accepts(s: TransitionState, url: string)
  {
    !s.isAnimating && s.contentMounted && s.pathname != url
  }

  /** A navigation is dropped while animating, without content, or to the current
      page; an accepted one locks, writes the flag and starts the fade-out, but
      does not yet change the location. */
  lemma NavigateToGuards(s: TransitionState, url: string)
    ensures !Accepts(s, url) ==> OnNavigate(s, url) == s
    ensures Accepts(s, url) ==> var t := OnNavigate(s, url);
      t.isAnimating && t.flag == Some("true") && t.exitTween == Some(url) && t.leftFor == s.leftFor
  {
  }

  /** The location changes only when the fade-out completes, and then to the
      url of the accepted navigation. */
  lemma LeavesOnlyOnCompletion(s: TransitionState, url: string)
    requires Accepts(s, url) && s.leftFor.None?
    ensures OnNavigate(s, url).leftFor.None?
    ensures OnExitComplete(OnNavigate(s, url)).leftFor == Some(url)
    ensures OnExitComplete(OnNavigate(s, url)).isAnimating
  {
  }

  /** The flag an accepted navigation writes makes the next document an entry,
      and that document's mount consumes it, so the one after is not an entry. */
  lemma EntryFlagRoundTrip(s: TransitionState, url: string, pathname: string, firstVisitAttr: bool)
    requires Accepts(s, url)
    ensures var next := Initial(true, OnNavigate(s, url).flag, true, firstVisitAttr, pathname, true);
      next.isPageEntry &&
      OnMount(next).flag.None? && !OnMount(next).pageEntryAttr &&
      !GetIsPageEntry(true, OnMount(next).flag)
  {
  }

  /** A mount that is not an entry forces the content visible exactly when the
      first-visit loader is not in charge of it. */
  lemma NonEntryMount(s: TransitionState)
    requires s.contentMounted && !s.isPageEntry
    ensures OnMount(s).forcedVisible == (s.forcedVisible || !s.firstVisitAttr)
    ensures OnMount(s).flag == s.flag && OnMount(s).pageEntryAttr == s.pageEntryAttr
  {
  }

  datatype Event = Navigate(url: string) | FadeOutDone

  function Step(s: TransitionState, e: Event): TransitionState
  {
    match e
    case Navigate(url) => OnNavigate(s, url)
    case FadeOutDone => OnExitComplete(s)
  }

  function Run(s: TransitionState, evs: seq<Event>): TransitionState
    decreases |evs|
  {
    if evs == [] then s else Run(Step(s, evs[0]), evs[1..])
  }

  /** Once locked, the provider stays locked: every later navigation on the same
      instance is dropped, and at most one url is ever left for. */
  lemma {:induction false} LockIsPermanent(s: TransitionState, evs: seq<Event>, url: string)
    requires s.isAnimating && s.exitTween.Some?
    ensures Run(s, evs).isAnimating
    ensures Run(s, evs).leftFor.Some? ==> Run(s, evs).leftFor == s.exitTween || Run(s, evs).leftFor == s.leftFor
    ensures OnNavigate(Run(s, evs), url) == Run(s, evs)
    decreases |evs|
  {
    if evs != [] {
      var s' := Step(s, evs[0]);
      if s'.exitTween.Some? {
        LockIsPermanent(s', evs[1..], url);
      } else {
        LockedAfterLeaving(s', evs[1..]);
      }
    }
  }

  lemma {:induction false} LockedAfterLeaving(s: TransitionState, evs: seq<Event>)
    requires s.isAnimating && s.exitTween.None?
    ensures Run(s, evs) == s
    decreases |evs|
  {
    if evs != [] {
      LockedAfterLeaving(Step(s, evs[0]), evs[1..]);
    }
  }

  class PageTransitionProvider {
    const isPageEntry: bool
    const contentMounted: bool
    var flag: Option<string>
    var pageEntryAttr: bool
    const firstVisitAttr: bool
    var entryAnimated: bool
    var forcedVisible: bool
    var isAnimating: bool
    const pathname: string
    var exitTween: Option<string>
    var leftFor: Option<string>

    function State(): TransitionState
      reads this
    {
      TransitionState(isPageEntry, contentMounted, flag, pageEntryAttr, firstVisitAttr,
                      entryAnimated, forcedVisible, isAnimating, pathname, exitTween, leftFor)
    }

    constructor (hasWindow: bool, storedFlag: Option<string>, hasPageEntryAttr: bool, hasFirstVisitAttr: bool,
                 locationPathname: string, hasContent: bool)
      ensures State() == Initial(hasWindow, storedFlag, hasPageEntryAttr, hasFirstVisitAttr, locationPathname, hasContent)
    {
      isPageEntry := GetIsPageEntry(hasWindow, storedFlag);
      contentMounted := hasContent;
      flag := storedFlag;
      pageEntryAttr := hasPageEntryAttr;
      firstVisitAttr := hasFirstVisitAttr;
      entryAnimated, forcedVisible, isAnimating := false, false, false;
      pathname := locationPathname;
      exitTween, leftFor := None, None;
    }

    method Mount()
      modifies this
      ensures State() == OnMount(old(State()))
    {
      if !contentMounted {
        return;
      }
      if isPageEntry {
        flag := None;
        pageEntryAttr := false;
        entryAnimated := true;
      } else if !firstVisitAttr {
        forcedVisible := true;
      }
    }

    method NavigateTo(url: string)
      modifies this
      ensures State() == OnNavigate(old(State()), url)
    {
      if isAnimating || !contentMounted {
        return;
      }
      if pathname == url {
        return;
      }
      isAnimating := true;
      flag := Some("true");
      exitTween := Some(url);
    }

    method ExitComplete()
      modifies this
      ensures State() == OnExitComplete(old(State()))
    {
      if exitTween.Some? {
        leftFor := exitTween;
        exitTween := None;
      }
    }
  }
}
