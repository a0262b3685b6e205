/** The client-side navigation state holder (`NavigationProvider`): the current
    path, the entries it pushes onto the browser history, and the
    "spa-navigation" events it dispatches. React state updates are taken to be
    applied before the next event is handled. */
module Navigation {
  import opened Wrappers

  /** What the provider has done so far: the current path, the entries pushed
      with `history.pushState`, and the number of "spa-navigation" events. */
  datatype NavState = NavState(currentPath: string, pushed: seq<string>, spaEvents: nat)

  /** The lazy initial value of `currentPath`. */
  function InitialPath(hasWindow: bool, pathname: string): (p: string)
    ensures p != ""
    ensures !hasWindow ==> p == "/"
    ensures hasWindow && pathname != "" ==> p == pathname
    ensures hasWindow && pathname == "" ==> p == "/"
  {
    if !hasWindow then "/" else if pathname != "" then pathname else "/"
  }

  function Initial(hasWindow: bool, pathname: string): NavState
  {
    NavState(InitialPath(hasWindow, pathname), [], 0)
  }

  /** `navigateTo(url)`: dropped when `url` is already current; otherwise one
      history entry, the new path, one event. */
  function Navigate(s: NavState, url: string): NavState
  {
    if url == s.currentPath then s
    else NavState(url, s.pushed + [url], s.spaEvents + 1)
  }

  /** `handlePopState`: the browser already moved; resynchronise without pushing. */
  function PopState(s: NavState, pathname: string): NavState
  {
    NavState(pathname, s.pushed, s.spaEvents + 1)
  }

  datatype Event = NavigateTo(url: string) | Pop(pathname: string)

  function Step(s: NavState, e: Event): NavState
  {
    match e
    case NavigateTo(url) => Navigate(s, url)
    case Pop(pathname) => PopState(s, pathname)
  }

  function Run(s: NavState, evs: seq<Event>): NavState
    decreases |evs|
  {
    if evs == [] then s else Run(Step(s, evs[0]), evs[1..])
  }

  function PopCount(evs: seq<Event>): nat
  {
    if evs == [] then 0 else (if evs[0].Pop? then 1 else 0) + PopCount(evs[1..])
  }

  /** A navigation to the current path changes nothing: no entry, no event. */
  lemma NavigateSameIsNoop(s: NavState)
    ensures Navigate(s, s.currentPath) == s
  {
  }

  /** An accepted navigation appends exactly the new url and dispatches one event. */
  lemma NavigateAccepted(s: NavState, url: string)
    requires url != s.currentPath
    ensures Navigate(s, url).currentPath == url
    ensures Navigate(s, url).pushed == s.pushed + [url]
    ensures Navigate(s, url).spaEvents == s.spaEvents + 1
  {
  }

  /** Navigating to the same url twice in a row pushes one history entry. */
  lemma NavigateTwice(s: NavState, url: string)
    ensures Navigate(Navigate(s, url), url) == Navigate(s, url)
    ensures |Navigate(Navigate(s, url), url).pushed| <= |s.pushed| + 1
  {
  }

  /** Over any sequence of events the history log only grows, and the events
      dispatched are exactly one per pushed entry plus one per popstate. */
  lemma {:induction false} RunAccounting(s: NavState, evs: seq<Event>)
    ensures var t := Run(s, evs);
      |s.pushed| <= |t.pushed| && t.pushed[..|s.pushed|] == s.pushed &&
      t.spaEvents - s.spaEvents == (|t.pushed| - |s.pushed|) + PopCount(evs)
    decreases |evs|
  {
    if evs != [] {
      var s' := Step(s, evs[0]);
      RunAccounting(s', evs[1..]);
      var t := Run(s, evs);
      assert t == Run(s', evs[1..]);
      assert t.pushed[..|s.pushed|] == t.pushed[..|s'.pushed|][..|s.pushed|];
    }
  }

  /** The last pushed entry is the current path. */
  predicate Synced(s: NavState)
  {
    |s.pushed| > 0 ==> s.pushed[|s.pushed| - 1] == s.currentPath
  }

  predicate NoAdjacentDuplicates(h: seq<string>)
  {
    forall i :: 0 < i < |h| ==> h[i] != h[i - 1]
  }

  predicate AllNavigations(evs: seq<Event>)
  {
    forall i :: 0 <= i < |evs| ==> evs[i].NavigateTo?
  }

  /** Without back/forward in between, the provider never pushes the same url
      twice in a row: the history it writes has no adjacent duplicates. */
  lemma {:induction false} NavigationsNeverRepeat(s: NavState, evs: seq<Event>)
    requires Synced(s) && NoAdjacentDuplicates(s.pushed) && AllNavigations(evs)
    ensures Synced(Run(s, evs)) && NoAdjacentDuplicates(Run(s, evs).pushed)
    decreases |evs|
  {
    if evs != [] {
      var s' := Step(s, evs[0]);
      assert Synced(s') && NoAdjacentDuplicates(s'.pushed);
      assert AllNavigations(evs[1..]) by {
        forall i | 0 <= i < |evs[1..]| ensures evs[1..][i].NavigateTo? {
          assert evs[1..][i] == evs[i + 1];
        }
      }
      NavigationsNeverRepeat(s', evs[1..]);
    }
  }

  /** `useNavigation`: the provider's value, or the error it throws outside a provider. */
  datatype Lookup<T> = Found(value: T) | Thrown(message: string)

  const OutsideProvider := "useNavigation must be used within NavigationProvider"

  function UseNavigation<T>(context: Option<T>): (r: Lookup<T>)
    ensures r.Thrown? <==> context.None?
    ensures r.Thrown? ==> r.message == OutsideProvider
    ensures r.Found? ==> r.value == context.value
  {
    match context
    case None => Thrown(OutsideProvider)
    case Some(c) => Found(c)
  }

  /** The provider component: its `currentPath` state, the history entries it
      pushed and the events it dispatched. */
  class NavigationProvider {
    var currentPath: string
    var pushed: seq<string>
    var spaEvents: nat

    function State(): NavState
      reads this
    {
      NavState(currentPath, pushed, spaEvents)
    }

    constructor (hasWindow: bool, pathname: string)
      ensures State() == Initial(hasWindow, pathname)
      ensures currentPath != ""
    {
      currentPath := InitialPath(hasWindow, pathname);
      pushed := [];
      spaEvents := 0;
    }

    method NavigateTo(url: string)
      modifies this
      ensures State() == Navigate(old(State()), url)
      ensures |pushed| <= |old(pushed)| + 1
    {
      if url == currentPath {
        return;
      }
      pushed := pushed + [url];
      currentPath := url;
      spaEvents := spaEvents + 1;
    }

    method HandlePopState(pathname: string)
      modifies this
      ensures State() == PopState(old(State()), pathname)
      ensures pushed == old(pushed)
    {
      currentPath := pathname;
      spaEvents := spaEvents + 1;
    }
  }
}
