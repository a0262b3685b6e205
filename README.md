# kz_creation: the sequential logic of a portfolio site, in Dafny

The site is a set of animated pages. Most of the repository is markup, styling
and animation-library calls. This project models the small pieces of
sequential logic spread through it, and proves properties about each one:

- **Client navigation.** `NavigationProvider` holds the current path and the
  history entries it pushes. `App` resolves a path to a page through a fixed
  table, falling back to the index page. `PageTransitionProvider` runs a
  full-document fade-out guarded by an `isAnimating` lock and a session flag.
  The lab slider's `goToSlide` drops re-entrant, out-of-range and same-index
  requests.
- **One-shot gates.** The first-visit loader is driven by the
  `data-first-visit` attribute. The home intro locks scrolling, releases it at
  most once, and types out its tagline.
- **Grid effects.** `ScreenMigration`, `Loading` and the two cursor effects
  share ceil-division sizing, row-major ids and Fisher–Yates shuffles.
  `Loading` also sorts by distance and groups cells. The cursor effects select
  a neighbourhood of the cursor's cell, and the canvas variant keeps a map of
  lit cells.
- **View state.** The fetch reducers of the Notes and Blog pages, the modal's
  overflow and Escape handling, and the wheel-scrolled list of Notes and
  Activity.
- **Server endpoints.** `/api/articles.json`, `/api/blog-posts` and
  `/api/github-contrib`: request guards, item mapping and sorting.
- **Content schemas.** The `profile` and `activity` collections, written as
  parsers from JSON with encode/parse round trips.

Each stateful component has the same layout. A datatype holds its state. Each
event is a step function on that datatype. A `Run` folds a sequence of
events. Lemmas about the step functions state what the source promises. A
`class` with the source's variables as fields has one method per handler.
Each method's `ensures` equates the new `State()` with the step function
applied to the old one. React state updates are taken to be applied before
the next event is handled.

Inputs replace the environment:

- The outcome of `fetch` is a datatype.
- `Math.random` is replaced by supplied draws: the Fisher–Yates indices, the
  radius draw and the set of skipped positions.
- `new Date(...).getTime()` is a supplied function returning `None` where
  JavaScript gets `NaN`.
- `Math.sqrt` is a supplied function.
- Whether the animation library loaded, and every animation, frame, timeout
  and tween completion, is an explicit event.
- The presence of each DOM node is a boolean.

Points where the code is not what its names or its callers suggest:

- A first visit is decided by the `data-first-visit` attribute on the
  document (src/hooks/useFirstVisitLoading.ts:11-24). The `hasVisited`
  session flag is only written, on completion, and never read there.
- `src/components/Animations/GithubContrib3D.tsx:16-26` requests
  `/api/github-contrib?user=...` and reads `{total, width, height, days}`.
  The endpoint (src/pages/api/github-contrib.ts:6-8) reads `username` and
  answers 400 without it, and returns `{totalContributions, weeks}`. The
  model is of the endpoint.
- `src/pages/api/github-contrib.ts:69-81` does not parse: the `new Response(`
  call is never closed. `GithubContrib.Get` models the response that code
  evidently intends: the total and the reshaped weeks, with status 200.

## Model

| member | source | states |
|---|---|---|
| Routes.Resolve | src/features/app/App.tsx:10-20 | a path in the table gives its page; any other path gives the index page, so resolution is total |
| Routes.PathOf | src/features/app/App.tsx:10-15 | every page is registered under a path that the table maps back to it |
| Routes.TableDomain | src/features/app/App.tsx:10-15 | the table's keys are exactly "/", "/about", "/lab" and "/contact" |
| Routes.ResolveRoundTrip | src/features/app/App.tsx:10-20 | resolving a page's path gives the page back; a registered path is the path of the page it resolves to |
| Routes.RemountIffPathChanges | src/features/app/App.tsx:20-25 | the wrapper is remounted exactly when the path changes, even from "/" to an unknown path that renders the same index page |
| Navigation.InitialPath | src/features/app/NavigationContext.tsx:24-27 | the initial path is "/" without a window, otherwise the location's pathname when non-empty and "/" when it is empty; it is never empty |
| Navigation.NavigateSameIsNoop | src/features/app/NavigationContext.tsx:42-43 | navigating to the current path pushes nothing, changes nothing and dispatches no event |
| Navigation.NavigateAccepted | src/features/app/NavigationContext.tsx:42-50 | navigating to another path pushes exactly that url, makes it current, and dispatches exactly one event |
| Navigation.NavigateTwice | src/features/app/NavigationContext.tsx:42-46 | navigating to the same url twice in a row: the second call is a no-op, so at most one entry is pushed |
| Navigation.RunAccounting | src/features/app/NavigationContext.tsx:31-50 | over any events the pushed history only grows at its end, and the events dispatched are one per pushed entry plus one per popstate |
| Navigation.NavigationsNeverRepeat | src/features/app/NavigationContext.tsx:42-46 | without popstate, the last pushed entry stays the current path and the pushed history never has two equal neighbours |
| Navigation.UseNavigation | src/features/app/NavigationContext.tsx:11-17 | outside a provider the hook throws its message; inside, it returns the provider's value |
| Navigation.NavigationProvider.constructor | src/features/app/NavigationContext.tsx:24-27 | the provider starts at the initial path, with nothing pushed and no event dispatched |
| Navigation.NavigationProvider.NavigateTo | src/features/app/NavigationContext.tsx:42-51 | the new state is the navigation step of the old one, with at most one entry pushed |
| Navigation.NavigationProvider.HandlePopState | src/features/app/NavigationContext.tsx:31-36 | popstate sets the path and dispatches an event without pushing |
| PageTransition.GetIsPageEntry | src/shared/components/gsap/pageTransition.tsx:31-34 | a mount is an entry iff there is a window and the `pageTransition` flag reads "true" |
| PageTransition.NavigateToGuards | src/shared/components/gsap/pageTransition.tsx:72-89 | a navigation is dropped while animating, without content, or to the current pathname; an accepted one locks, writes the flag and starts the fade-out without leaving yet |
| PageTransition.LeavesOnlyOnCompletion | src/shared/components/gsap/pageTransition.tsx:78-89 | the location changes only when the fade-out completes, to the accepted url, and the lock stays set |
| PageTransition.EntryFlagRoundTrip | src/shared/components/gsap/pageTransition.tsx:31-49 | the flag an accepted navigation writes makes the next document an entry; that mount removes the flag and the attribute, so the following one is not an entry |
| PageTransition.NonEntryMount | src/shared/components/gsap/pageTransition.tsx:63-68 | a non-entry mount forces the content visible exactly when `data-first-visit` is absent, and leaves the flag and attribute alone |
| PageTransition.LockIsPermanent | src/shared/components/gsap/pageTransition.tsx:38-89 | once locked, the provider stays locked over any events, drops every later navigation, and leaves for at most the one accepted url |
| PageTransition.LockedAfterLeaving | src/shared/components/gsap/pageTransition.tsx:73-89 | after leaving, no event changes the provider's state |
| PageTransition.PageTransitionProvider.constructor | src/shared/components/gsap/pageTransition.tsx:36-39 | the provider starts unlocked, with the entry decision taken from the stored flag |
| PageTransition.PageTransitionProvider.Mount | src/shared/components/gsap/pageTransition.tsx:41-70 | the layout effect's new state is the mount step of the old one |
| PageTransition.PageTransitionProvider.NavigateTo | src/shared/components/gsap/pageTransition.tsx:72-80 | `navigateTo`'s new state is the navigation step of the old one |
| PageTransition.PageTransitionProvider.ExitComplete | src/shared/components/gsap/pageTransition.tsx:86-88 | the fade-out's completion leaves for the pending url |
| Lab.CleanPath | src/features/lab/index.tsx:21 | a leading "~" becomes "/src"; a path without a leading "~" is unchanged |
| Lab.CleanPathOnlyLeading | src/features/lab/index.tsx:21 | a "~" after the first character is kept where it was |
| Lab.GetImage | src/features/lab/index.tsx:20-24 | the image is found iff the cleaned path is a bundled module, and it is that module |
| Lab.Works | src/features/lab/index.tsx:26-31 | every kept work carries the image its path resolves to, and no more works are kept than there are entries |
| Lab.WorksConcat | src/features/lab/index.tsx:26-31 | the filter keeps order: the works of a concatenation are the concatenation of the works |
| Lab.WorksSingle | src/features/lab/index.tsx:26-31 | one entry is kept, with its resolved image, iff its image resolves |
| Lab.StepValid | src/features/lab/index.tsx:41-62 | every event keeps both indices on the list and the lock held exactly while an exit is pending |
| Lab.RunValid | src/features/lab/index.tsx:41-62 | the same invariant holds over any sequence of events |
| Lab.IndexAlwaysInRange | src/features/lab/index.tsx:34-62 | starting at 0 with at least one work, the current index always lies in `[0, works.length)` |
| Lab.GoToSlideGuards | src/features/lab/index.tsx:45-55 | a request while animating, out of range or for the current index changes nothing; an accepted one locks and records direction +1 or -1 |
| Lab.OnlyFirstTargetApplies | src/features/lab/index.tsx:45-62 | a second request before completion is dropped; completion applies the first target and unlocks |
| Lab.WheelAtEnds | src/features/lab/index.tsx:87-88 | at the first work wheel-up is a no-op, and at the last work wheel-down is a no-op |
| Lab.CurrentWork | src/features/lab/index.tsx:96 | the shown work is `works[currentIndex]` when the index is on the list, and nothing otherwise |
| Lab.LabPage.constructor | src/features/lab/index.tsx:34-39 | the slider starts at index 0, unlocked, in a valid state |
| Lab.LabPage.GoToSlide | src/features/lab/index.tsx:45-71 | `goToSlide`'s new state is the request step of the old one |
| Lab.LabPage.ExitComplete | src/features/lab/index.tsx:57-62 | the exit timeline's completion sets the index and unlocks |
| Lab.LabPage.SyncIndexRef | src/features/lab/index.tsx:41-43 | the effect copies the current index into `indexRef` |
| Lab.LabPage.OnUp | src/features/lab/index.tsx:87 | wheel-up requests `indexRef - 1` |
| Lab.LabPage.OnDown | src/features/lab/index.tsx:88 | wheel-down requests `indexRef + 1` |
| FirstVisit.DecidedByAttribute | src/hooks/useFirstVisitLoading.ts:11-24 | the mount does not depend on the `hasVisited` session value, only on the attribute |
| FirstVisit.RepeatVisit | src/hooks/useFirstVisitLoading.ts:18-22 | a repeat visit hides an existing overlay, shows an existing wrapper, and starts no timeline |
| FirstVisit.MissingNodeDoesNothing | src/hooks/useFirstVisitLoading.ts:24 | a first visit with a loader node missing changes nothing: no flag written, attribute kept |
| FirstVisit.FirstVisitCompletes | src/hooks/useFirstVisitLoading.ts:26-40 | completion writes `hasVisited`, removes the attribute, hides the overlay, and fades in the wrapper iff it exists; the next mount takes the repeat path |
| FirstVisit.CleanupPreventsCompletion | src/hooks/useFirstVisitLoading.ts:53-55 | after cleanup, a completion callback changes nothing, and a running timeline's cleanup writes nothing |
| FirstVisit.FlagOnlyFromCompletion | src/hooks/useFirstVisitLoading.ts:26-55 | over any events the flag is untouched unless the timeline completed, which also removed the attribute |
| FirstVisit.CompletedIsFinal | src/hooks/useFirstVisitLoading.ts:26-30 | once completed, the recorded visit and the removed attribute persist over any events |
| FirstVisit.FirstVisitLoader.constructor | src/hooks/useFirstVisitLoading.ts:11-16 | the hook starts from the attribute, the nodes present and the stored flag, with no timeline |
| FirstVisit.FirstVisitLoader.Mount | src/hooks/useFirstVisitLoading.ts:10-51 | the effect's new state is the mount step of the old one |
| FirstVisit.FirstVisitLoader.OnTimelineComplete | src/hooks/useFirstVisitLoading.ts:27-39 | the completion's new state is the completion step of the old one |
| FirstVisit.FirstVisitLoader.Cleanup | src/hooks/useFirstVisitLoading.ts:53-55 | cleanup kills a running timeline |
| MainPageAnimation.StepKeepsReleaseInv | src/components/Animations/MainPageAnimation.tsx:28-40 | every event keeps both elements locked until the single release, after which neither is locked |
| MainPageAnimation.ReleasedAtMostOnce | src/components/Animations/MainPageAnimation.tsx:33-38 | over any events `releaseScroll` takes effect at most once, and never again after it has |
| MainPageAnimation.FallbacksRelease | src/components/Animations/MainPageAnimation.tsx:48-50 | a missing container, a failed library load and teardown each leave scroll released |
| MainPageAnimation.LoadSchedulesRelease | src/components/Animations/MainPageAnimation.tsx:117-176 | whatever elements exist, a successful load tracks an animation whose callback releases scroll |
| MainPageAnimation.TeardownKillsAll | src/components/Animations/MainPageAnimation.tsx:235-241 | after teardown no tracked animation is live, so no typing or release callback changes anything |
| MainPageAnimation.TeardownRestoresText | src/components/Animations/MainPageAnimation.tsx:243-249 | teardown removes `typing-active` and puts back a non-empty original text; with an empty original the text stays as it is |
| MainPageAnimation.LoadStartsTyping | src/components/Animations/MainPageAnimation.tsx:63-72 | loading with the text element saves the original, empties the text and starts typing |
| MainPageAnimation.TypeCharKeepsPrefix | src/components/Animations/MainPageAnimation.tsx:75-85 | a character call keeps the text equal to a prefix of the original |
| MainPageAnimation.TypedPrefix | src/components/Animations/MainPageAnimation.tsx:71-85 | after k more character calls the text is the first `typed + k` characters of the original |
| MainPageAnimation.TypingDoneShowsAll | src/components/Animations/MainPageAnimation.tsx:87-95 | the final call shows the full original and removes `typing-active` |
| MainPageAnimation.Intro.constructor | src/components/Animations/MainPageAnimation.tsx:24-40 | the effect starts with both elements locked and nothing tracked |
| MainPageAnimation.Intro.LockScroll | src/components/Animations/MainPageAnimation.tsx:28-31 | `prevent-scroll` is on both the html and body elements |
| MainPageAnimation.Intro.Release | src/components/Animations/MainPageAnimation.tsx:33-38 | the release's new state is the release step of the old one |
| MainPageAnimation.Intro.LoadFailed | src/components/Animations/MainPageAnimation.tsx:231-233 | a failed import releases scroll |
| MainPageAnimation.Intro.LoadDone | src/components/Animations/MainPageAnimation.tsx:44-192 | the import's `.then` tracks the animations in push order for the elements present |
| MainPageAnimation.Intro.TypeChar | src/components/Animations/MainPageAnimation.tsx:76-83 | a live character call appends the next character |
| MainPageAnimation.Intro.TypingDone | src/components/Animations/MainPageAnimation.tsx:87-95 | a live final call restores the text and removes the marker |
| MainPageAnimation.Intro.Callback | src/components/Animations/MainPageAnimation.tsx:151-174 | a live releasing callback releases scroll |
| MainPageAnimation.Intro.Teardown | src/components/Animations/MainPageAnimation.tsx:235-249 | teardown's new state is the teardown step of the old one |
| Grid.CeilDiv | src/components/layouts/ScreenMigration.tsx:38-39 | the cell count covers the length, and one fewer cell would not |
| Grid.GridDims | src/components/layouts/ScreenMigration.tsx:38-39 | the grid covers the viewport, and a dimension is 0 iff its length is 0 |
| Grid.GridDimsMinimal | src/components/layouts/Loading.tsx:21-22 | one column or row fewer would leave part of the viewport uncovered |
| Grid.IdInRange | src/components/gsap/cursorEffect.tsx:30-39 | a row-major id of an in-grid position lies below `rows * cols` |
| Grid.ColOf | src/components/layouts/Loading.tsx:49 | the column of an index lies below `cols` |
| Grid.PositionOfId | src/components/layouts/Loading.tsx:48-50 | the column and row recovered from a row-major id are the ones it was built from |
| Grid.IdOfPosition | src/components/layouts/Loading.tsx:48-50 | the row-major id of an index's column and row is the index |
| Grid.RowInRange | src/components/layouts/Loading.tsx:50 | every index below `rows * cols` lies on a row below `rows` |
| Grid.RowMajorAt | src/components/layouts/ScreenMigration.tsx:52-59 | cell k of the reading order has id k, row `k / cols` and column `k % cols`, so each id in `[0, rows*cols)` occurs once |
| Grid.RowMajorCells | src/components/layouts/ScreenMigration.tsx:52-59 | the nested loops produce the row-major cell list |
| Shuffle.Swap | src/components/layouts/ScreenMigration.tsx:64 | a swap exchanges two slots and leaves every other slot alone |
| Shuffle.SwapPermutes | src/components/layouts/ScreenMigration.tsx:64 | a swap keeps the multiset of elements |
| Shuffle.ShuffleDownPermutes | src/components/layouts/ScreenMigration.tsx:62-65 | steps `i` down to 1 of the shuffle keep the length and the multiset |
| Shuffle.FisherYatesPermutes | src/components/layouts/ScreenMigration.tsx:62-65 | whatever the draws in `[0, i]`, the shuffle returns a permutation of its input |
| Shuffle.ShuffleDownKeepsTail | src/components/layouts/ScreenMigration.tsx:62-65 | positions above the current step are final |
| Shuffle.IdentityDraws | src/components/layouts/ScreenMigration.tsx:62-65 | drawing `j == i` at every step leaves the order unchanged |
| Shuffle.ShuffleInPlace | src/components/layouts/ScreenMigration.tsx:62-65 | the in-place loop computes the shuffle of the old array, a permutation of it |
| ScreenMigration.ShuffleDownIds | src/components/layouts/ScreenMigration.tsx:62-65 | shuffling cells shuffles their ids by the same draws |
| ScreenMigration.FisherYatesIds | src/components/layouts/ScreenMigration.tsx:62-65 | the ids of the shuffled cells are the shuffle of the ids |
| ScreenMigration.InitialCells | src/components/layouts/ScreenMigration.tsx:52-65 | the shuffled cell array holds every id of the grid once, each cell still at its own row and column |
| ScreenMigration.FadeOutOrder | src/components/layouts/ScreenMigration.tsx:126-130 | the fade-out order is the shuffle of a copy, a permutation of the cells; the cells themselves are unchanged |
| ScreenMigration.ZeroDimensionNeverStarts | src/components/layouts/ScreenMigration.tsx:47 | with a zero dimension no frame is requested, and no event ever starts the animation |
| ScreenMigration.UnsizedIsInert | src/components/layouts/ScreenMigration.tsx:47 | a sized but empty grid ignores every event |
| ScreenMigration.StartAnimation | src/components/layouts/ScreenMigration.tsx:72-118 | with `skipFadeIn` the fade-in is reported at once and the fade-out is scheduled 500 ms later; without it nothing is reported until the fade-in completes |
| ScreenMigration.FadeOutBranches | src/components/layouts/ScreenMigration.tsx:145-163 | both completion branches remove `showMigration` and report the fade-out once; the content branch reports only after its tween |
| ScreenMigration.StepConsistent | src/components/layouts/ScreenMigration.tsx:72-163 | every event keeps the report counts, the timeout and the flag consistent with the phase |
| ScreenMigration.ReportedAtMostOnce | src/components/layouts/ScreenMigration.tsx:83-161 | over any events the fade-in and the fade-out are each reported at most once |
| ScreenMigration.InitialConsistent | src/components/layouts/ScreenMigration.tsx:22-42 | the initial state is consistent |
| ScreenMigration.NothingAfterCleanup | src/components/layouts/ScreenMigration.tsx:173-184 | after the corrected cleanup, no event reports anything or touches the flag |
| ScreenMigration.CleanupMissesInnerFrame | src/components/layouts/ScreenMigration.tsx:167-174 | the cleanup as written lets the nested frame report the fade-in after unmount; the corrected cleanup does not |
| ScreenMigration.CleanupMissesContentTween | src/components/layouts/ScreenMigration.tsx:147-158 | the cleanup as written lets the container tween clear the flag and report the fade-out after unmount; the corrected cleanup does not |
| ScreenMigration.CleanupsAgree | src/components/layouts/ScreenMigration.tsx:173-184 | the two cleanups agree in every phase except the nested frame and the container tween |
| ScreenMigration.Migration.constructor | src/components/layouts/ScreenMigration.tsx:22-28 | the component starts unsized and animating, with nothing reported |
| ScreenMigration.Migration.Size | src/components/layouts/ScreenMigration.tsx:35-65 | sizing is the sizing step; a started grid holds every id once |
| ScreenMigration.Migration.Frame1 | src/components/layouts/ScreenMigration.tsx:167-168 | the outer frame requests the inner one |
| ScreenMigration.Migration.ReportFadeIn | src/components/layouts/ScreenMigration.tsx:81-87 | reporting the fade-in unlocks, counts the report and sets the 500 ms timeout |
| ScreenMigration.Migration.Frame2 | src/components/layouts/ScreenMigration.tsx:72-119 | the inner frame runs `startAnimation` |
| ScreenMigration.Migration.FadeInComplete | src/components/layouts/ScreenMigration.tsx:109-117 | the fade-in's completion reports it |
| ScreenMigration.Migration.Timeout | src/components/layouts/ScreenMigration.tsx:121-143 | the timeout starts the fade-out over a reshuffled copy and leaves the cells unchanged |
| ScreenMigration.Migration.ReportFadeOut | src/components/layouts/ScreenMigration.tsx:153-161 | reporting the fade-out removes the flag and counts the report |
| ScreenMigration.Migration.FadeOutComplete | src/components/layouts/ScreenMigration.tsx:145-163 | the fade-out's completion fades the container first when it exists |
| ScreenMigration.Migration.ContentFaded | src/components/layouts/ScreenMigration.tsx:152-157 | the container tween's completion reports the fade-out |
| ScreenMigration.Migration.Cleanup | src/components/layouts/ScreenMigration.tsx:173-184 | the corrected cleanup stops every pending step |
| Loading.SquaredDistance | src/components/layouts/Loading.tsx:44-53 | the squared distance from the centre is non-negative |
| Loading.MeasureCells | src/components/layouts/Loading.tsx:48-55 | entry i has index i, column `i mod cols`, row `i div cols`, lies inside the grid, and carries its distance |
| Loading.SortFarthestFirst | src/components/layouts/Loading.tsx:58 | the sorted cells are a permutation in non-increasing distance |
| Loading.SinkStep | src/components/layouts/Loading.tsx:58 | one swap of the insertion pass moves the misplaced cell left and keeps the multiset |
| Loading.SinkInto | src/components/layouts/Loading.tsx:58 | one insertion pass extends the sorted prefix by one cell |
| Loading.GroupByDistance | src/components/layouts/Loading.tsx:61-78 | no cells is the `cellDistances[0]` failure; otherwise the groups concatenate to the sorted list, none is empty, each member is within 0.1 of its group's first distance, and consecutive first distances differ by at least 0.1 |
| Loading.JoinGroup | src/components/layouts/Loading.tsx:66-67 | adding a close cell to the open group keeps the grouping invariant |
| Loading.StartGroup | src/components/layouts/Loading.tsx:68-74 | closing the group at a far cell keeps the grouping invariant |
| Loading.WellGroupedSnoc | src/components/layouts/Loading.tsx:76-78 | appending a group close to its first cell, and far from the last leader, keeps the groups well formed |
| Loading.FlattenSnoc | src/components/layouts/Loading.tsx:70-77 | concatenating groups distributes over appending one |
| Loading.GroupsMoveInward | src/components/layouts/Loading.tsx:58-74 | over a farthest-first list each group's first distance is at least 0.1 below the previous one's |
| Loading.LeadersNonIncreasing | src/components/layouts/Loading.tsx:58-74 | group leaders of a farthest-first list never increase |
| Loading.FlattenMultiset | src/components/layouts/Loading.tsx:81-86 | permuting every group permutes their concatenation |
| Loading.GroupDraws | src/components/layouts/Loading.tsx:83 | the per-group draws lie in `[0, i]` |
| Loading.ShuffleGroups | src/components/layouts/Loading.tsx:81-86 | shuffling groups keeps their number |
| Loading.ShuffleKeepsGroups | src/components/layouts/Loading.tsx:81-86 | shuffling within groups keeps each group's membership and all the cells |
| Loading.Delay | src/components/layouts/Loading.tsx:98 | a cell of group g starts in `[0.02g, 0.02g + 0.01)` |
| Loading.EarlierGroupsFirst | src/components/layouts/Loading.tsx:96-98 | every cell of an earlier group starts before every cell of a later one |
| Loading.DelayIncreasesInGroup | src/components/layouts/Loading.tsx:97-98 | within a group, start times follow the shuffled order |
| Loading.TweensEndInTime | src/components/layouts/Loading.tsx:98-112 | every cell's 0.3 s tween ends within the total duration computed from the group count |
| Loading.TweenCells | src/components/layouts/Loading.tsx:96-109 | the tweens' cells are read in order |
| Loading.ScheduleTweens | src/components/layouts/Loading.tsx:96-109 | the tweens cover the groups' cells in order, each tagged with the group it belongs to and starting inside that group's window, with groups non-decreasing |
| Loading.InFlatten | src/components/layouts/Loading.tsx:61-78 | every member of a group is in the concatenated groups |
| Loading.LaterGroupsNearer | src/components/layouts/Loading.tsx:58-78 | when the groups concatenate to a farthest-first list, no cell of a later group is farther from the centre than a cell of an earlier group |
| Loading.PermutationDistinct | src/components/layouts/Loading.tsx:81-86 | a permutation of a list without repeats has no repeats |
| Loading.TweensOnePerCell | src/components/layouts/Loading.tsx:48-109 | tweens over a permutation of the measured cells animate every grid index exactly once |
| Loading.TweensMeasured | src/components/layouts/Loading.tsx:48-109 | each such tween carries its cell's own column, row and distance from the centre |
| Loading.TweensOutsideIn | src/components/layouts/Loading.tsx:58-109 | tweens scheduled over groups shuffled from a farthest-first grouping never animate a farther cell in a later group |
| Loading.Animate | src/components/layouts/Loading.tsx:17-109 | a missing node does nothing; a zero dimension is the no-cells failure; otherwise every grid cell gets exactly one tween, carrying its measured position and distance, groups are non-decreasing in order, a later group is never farther from the centre, and each tween starts in its group's window |
| CursorEffect.InitGrid | src/components/gsap/cursorEffect.tsx:19-41 | the grid is `ceil(width/20)` by `ceil(height/20)` with row-major cells |
| CursorEffect.Radius | src/components/gsap/cursorEffect.tsx:64 | the radius is 1 or 2, and 2 iff the draw is at least 0.5 |
| CursorEffect.SelectionInGrid | src/components/gsap/cursorEffect.tsx:66-77 | every selected index lies in `[0, rows*cols)`, within Chebyshev distance `radius` of the cursor's cell, and was not skipped |
| CursorEffect.NearbySelected | src/components/gsap/cursorEffect.tsx:68-74 | every in-grid, unskipped position within the radius is selected |
| CursorEffect.SelectCells | src/components/gsap/cursorEffect.tsx:66-77 | the nested loops fill the set with exactly the neighbourhood |
| CursorEffect.MoveWhilePendingIgnored | src/components/gsap/cursorEffect.tsx:54 | a move while a frame is pending changes nothing |
| CursorEffect.AtMostOneFlashPerMove | src/components/gsap/cursorEffect.tsx:53-57 | over any events, frames flash no more often than the mouse moved |
| CursorEffect.FlashesAppendOnly | src/components/gsap/cursorEffect.tsx:56-101 | earlier flashes are never revised |
| CursorEffect.InertAfterCleanup | src/components/gsap/cursorEffect.tsx:107-110 | after cleanup no event changes anything |
| CursorEffect.InteractiveGrid.constructor | src/components/gsap/cursorEffect.tsx:43-44 | mounting builds the grid and attaches the listeners |
| CursorEffect.InteractiveGrid.Resize | src/components/gsap/cursorEffect.tsx:44-111 | a resize rebuilds the grid and cancels the pending frame when the dimensions change |
| CursorEffect.InteractiveGrid.MouseMove | src/components/gsap/cursorEffect.tsx:53-56 | a move requests a frame unless one is pending |
| CursorEffect.InteractiveGrid.AnimationFrame | src/components/gsap/cursorEffect.tsx:56-101 | the frame flashes the neighbourhood of the pending move's cell |
| CursorEffect.InteractiveGrid.Cleanup | src/components/gsap/cursorEffect.tsx:107-110 | cleanup removes the listener and cancels the pending frame |
| CursorCanvas.Drawn | src/components/gsap/cursorEffectCanvas.tsx:74-78 | exactly the cells with alpha above 0.01 are drawn |
| CursorCanvas.Tweens | src/components/gsap/cursorEffectCanvas.tsx:54-62 | one tween starts per lit key |
| CursorCanvas.MountValid | src/components/gsap/cursorEffectCanvas.tsx:28-32 | the map starts empty |
| CursorCanvas.MoveValid | src/components/gsap/cursorEffectCanvas.tsx:40-51 | a move stores only in-grid keys, at their pixel positions, each with a live tween |
| CursorCanvas.TweenDoneValid | src/components/gsap/cursorEffectCanvas.tsx:59-61 | a tween's deletion keeps the map's invariant |
| CursorCanvas.MoveOverwrites | src/components/gsap/cursorEffectCanvas.tsx:44-51 | a move stores a fresh cell at `(x*10, y*10)` with alpha 1 under every lit key, overwriting, and leaves other keys alone |
| CursorCanvas.LitIsNeighbourhood | src/components/gsap/cursorEffectCanvas.tsx:40-43 | the lit keys are exactly the in-grid, unskipped positions within the radius |
| CursorCanvas.StaleTweenDeletesRelit | src/components/gsap/cursorEffectCanvas.tsx:59-61 | an old tween's completion deletes a key that was re-lit in the meantime |
| CursorCanvas.ResizeKeepsGrid | src/components/gsap/cursorEffectCanvas.tsx:24-32 | a resize does not change the grid the moves are clipped to |
| CursorCanvas.CleanupClears | src/components/gsap/cursorEffectCanvas.tsx:87-97 | after cleanup nothing is drawn and later moves do nothing; exactly one tween per stored cell is killed, so a tween of an overwritten cell stays live, and its completion only deletes from the emptied map |
| CursorCanvas.RelitTweenSurvivesCleanup | src/components/gsap/cursorEffectCanvas.tsx:40-61 | when a move re-lights a stored cell, the earlier tween on that key is not among those cleanup kills |
| CursorCanvas.GridCanvas.constructor | src/components/gsap/cursorEffectCanvas.tsx:24-32 | mounting measures the grid once and starts with an empty map |
| CursorCanvas.GridCanvas.Resize | src/components/gsap/cursorEffectCanvas.tsx:24-27 | a resize changes only the canvas size |
| CursorCanvas.GridCanvas.MouseMove | src/components/gsap/cursorEffectCanvas.tsx:35-67 | `handleMouseMove`'s new state is the move step of the old one |
| CursorCanvas.GridCanvas.LightUp | src/components/gsap/cursorEffectCanvas.tsx:40-66 | the nested loops store a fresh cell under exactly the lit keys |
| CursorCanvas.GridCanvas.TweenDone | src/components/gsap/cursorEffectCanvas.tsx:59-61 | a tween's completion deletes its key |
| CursorCanvas.GridCanvas.Cleanup | src/components/gsap/cursorEffectCanvas.tsx:87-97 | cleanup removes the listener, kills one tween per stored cell and clears the map |
| Text.OrElse | src/pages/api/articles.json.ts:10-11 | `a \|\| b` on strings: a non-empty value wins, otherwise the fallback; a non-empty fallback makes the result non-empty |
| Text.NatToStringRoundTrip | src/components/pages/Notes.tsx:28 | the decimal rendering of a status is a non-empty digit string that reads back as the number |
| Notes.NotOkMessage | src/components/pages/Notes.tsx:27-33 | a non-ok message is the body's `error`, else "Failed to load articles (status)"; an unreadable body gives "HTTP status" |
| Notes.ResponseKeepsInvariant | src/components/pages/Notes.tsx:27-50 | whenever `err` is set, `items` is empty |
| Notes.ResponseOutcomes | src/components/pages/Notes.tsx:27-50 | an items array is shown as is with no error; every other outcome empties the list and records a message |
| Notes.StatusReadBack | src/components/pages/Notes.tsx:28 | the status in "HTTP status" reads back as the status |
| Notes.AbortedIgnoresResponse | src/components/pages/Notes.tsx:54-56 | after cleanup a late response changes nothing |
| Notes.StatusCases | src/components/pages/Notes.tsx:120-138 | the status shows the error iff it is non-empty; otherwise "Loading..." iff the list is empty, else nothing |
| Notes.FailureIsVisible | src/components/pages/Notes.tsx:27-138 | a failed load never leaves the status line blank |
| Notes.NotesPage.constructor | src/components/pages/Notes.tsx:15-20 | the page starts with no items and no error |
| Notes.NotesPage.Receive | src/components/pages/Notes.tsx:24-51 | the fetch's update is the response step of the old state |
| Notes.NotesPage.Cleanup | src/components/pages/Notes.tsx:54-56 | cleanup sets `aborted` |
| Notes.LayOut | src/components/pages/Notes.tsx:59-112 | with no rendered item nothing happens; otherwise the position resets to 0 and the wheel handler is attached |
| WheelList.MaxScroll | src/components/pages/Activity.tsx:29-31 | the maximum is `(n-1)*200` for at least one item and 0 otherwise |
| WheelList.Clamp | src/components/pages/Activity.tsx:66-71 | the new position is the old one plus half the delta, clamped to `[0, maxScroll]` |
| WheelList.Spacing | src/components/pages/Activity.tsx:30-47 | consecutive items are 200 apart, and every target is the initial position moved up by the scroll |
| WheelList.DistanceIsScrollOffset | src/components/pages/Activity.tsx:30-48 | an item's distance from the centre is the scroll's distance from its slot, shifted by half of any height change since the offset was read; with the height unchanged it is exactly the scroll's distance from the slot |
| WheelList.EmphasisBounds | src/components/pages/Activity.tsx:49-53 | scale and opacity lie between their floor (0.85 and 0.4) and 1, and are 1 at the centre; the ratio is NaN iff the distance and the maximum distance are both 0 |
| WheelList.EmphasisMonotone | src/components/pages/Activity.tsx:52-53 | nearer items are never smaller or fainter |
| WheelList.UpdateItems | src/components/pages/Activity.tsx:43-63 | one target per rendered item, at its layout for the fixed offset and the current height |
| WheelList.Targets | src/components/pages/Activity.tsx:43-63 | there is one target per item |
| WheelList.WheelStaysInRange | src/components/pages/Notes.tsx:102-109 | after each wheel event the position lies in `[0, max((n-1)*200, 0)]`, the attach-time offset is kept, and the targets follow the position |
| WheelList.LastItemReachable | src/components/pages/Activity.tsx:66-72 | a large enough wheel delta moves the last item to where item 0 was first placed, which is the centre while the height is unchanged |
| WheelList.KeptScrollMayExceedRange | src/components/pages/Activity.tsx:24-31 | Activity keeps the old position across a re-layout, which can exceed the new range until the next wheel event |
| WheelList.Scroller.constructor | src/components/pages/Activity.tsx:22 | the position starts at 0 |
| WheelList.Scroller.Attach | src/components/pages/Activity.tsx:24-77 | the layout effect's new state is the attach step of the old one |
| WheelList.Scroller.Wheel | src/components/pages/Activity.tsx:44-73 | `handleWheel`'s new state is the wheel step of the old one, with the container's height read at the event and the offset read at attach time |
| WheelList.Scroller.Detach | src/components/pages/Activity.tsx:79-80 | cleanup removes the wheel handler |
| Blog.PlatformIcon | src/components/pages/Blog.tsx:37-46 | the icon is 📝 iff note, 📚 iff qiita, 📄 iff anything else |
| Blog.PlatformColor | src/components/pages/Blog.tsx:48-57 | the colour is green iff note, blue iff qiita, gray iff anything else |
| Blog.IconAndColorAgree | src/components/pages/Blog.tsx:37-57 | two platforms share an icon iff they share a colour |
| Blog.ResponseOutcome | src/components/pages/Blog.tsx:19-31 | every outcome ends loading; success keeps the error and defaults missing posts to []; a failure keeps the posts and sets a message |
| Blog.ViewsExclusive | src/components/pages/Blog.tsx:64-83 | the list and the empty note never show together or beside the spinner or error; once loaded without error, exactly one shows |
| Blog.FirstResponseView | src/components/pages/Blog.tsx:19-83 | from the initial state one response decides the page: the list, the empty note or the error |
| Blog.BlogPage.constructor | src/components/pages/Blog.tsx:13-15 | the page starts loading with no posts and no error |
| Blog.BlogPage.Receive | src/components/pages/Blog.tsx:18-32 | the fetch's updates are the response step of the old state |
| Modal.RenderContent | src/components/modal.tsx:39-50 | Profile iff "profile", Lab iff "lab", and nothing when closed or for any other value |
| Modal.Overflow | src/components/modal.tsx:11-16 | overflow is "hidden" iff the content type is truthy, else "" |
| Modal.MountedStaysSynced | src/components/modal.tsx:11-37 | while mounted, overflow and the Escape listener follow the content type over any events |
| Modal.ClosedNeverCloses | src/components/modal.tsx:30-39 | nothing calls `onClose` while closed |
| Modal.OpenCloses | src/components/modal.tsx:23-65 | on an open modal, a key or click calls `onClose` exactly once iff it is Escape, a backdrop click or a close-button click, and changes nothing else |
| Modal.UnmountReleases | src/components/modal.tsx:18-36 | unmounting restores overflow "", and later keys call nothing |
| Modal.ModalComponent.constructor | src/components/modal.tsx:10-37 | mounting runs both effects for the initial content type |
| Modal.ModalComponent.SetContentType | src/components/modal.tsx:11-37 | a content-type change runs the cleanups, then the effects |
| Modal.ModalComponent.KeyDown | src/components/modal.tsx:24-28 | Escape calls `onClose` while the listener is attached |
| Modal.ModalComponent.Click | src/components/modal.tsx:54-65 | a backdrop or close-button click calls `onClose`; any other click inside the panel does not |
| Modal.ModalComponent.Unmount | src/components/modal.tsx:18-36 | unmount restores overflow and removes the listener |
| ArticlesApi.Username | src/pages/api/articles.json.ts:10-11 | the env name wins over `?user`; none iff neither is truthy |
| ArticlesApi.ToArticle | src/pages/api/articles.json.ts:38-53 | title is `name`, else `title`, else ""; the date is `publishAt`, else `publishedAt`, else "" |
| ArticlesApi.UrlChoice | src/pages/api/articles.json.ts:41-47 | the url is the note.com url for a non-empty key, else `item.url` or "" |
| ArticlesApi.MapItems | src/pages/api/articles.json.ts:37-54 | one article per item, in order, each the item's mapping |
| ArticlesApi.KeepComplete | src/pages/api/articles.json.ts:55 | exactly the articles with a non-empty title and url are kept, each as many times as in the input |
| ArticlesApi.ArticlesSpec | src/pages/api/articles.json.ts:37-59 | the output is a permutation of the complete mapped items, duplicates included, and with all dates parseable it is newest first |
| ArticlesApi.GetCases | src/pages/api/articles.json.ts:9-70 | 400 iff no user name; a failed upstream keeps its status; a throw gives 500; otherwise 200, with no articles when `contents` is missing |
| ArticlesApi.NotOkNamesStatus | src/pages/api/articles.json.ts:19-25 | the failed-fetch message carries the upstream status and text |
| BlogPostsApi.UserId | src/pages/api/blog-posts.ts:54-55 | a missing or empty parameter falls back to the placeholder id |
| BlogPostsApi.FetchNotePosts | src/pages/api/blog-posts.ts:13-29 | note always contributes no posts |
| BlogPostsApi.DatePart | src/pages/api/blog-posts.ts:44 | the date is the prefix of `created_at` before its first 'T', or the whole string |
| BlogPostsApi.DatePartOfTimestamp | src/pages/api/blog-posts.ts:44 | a date followed by "T" and a time gives the date back |
| BlogPostsApi.Description | src/pages/api/blog-posts.ts:45 | the description is the first 200 characters of the body plus "...", at most 203 characters |
| BlogPostsApi.ToPost | src/pages/api/blog-posts.ts:39-46 | a Qiita post has id "qiita-" + id, platform qiita, the date part and the description |
| BlogPostsApi.FetchQiitaPosts | src/pages/api/blog-posts.ts:32-51 | one post per item in order; none on any failure |
| BlogPostsApi.QiitaPostsFromQiita | src/pages/api/blog-posts.ts:39-46 | every fetched Qiita post is marked as Qiita by id and platform |
| BlogPostsApi.AllPostsSpec | src/pages/api/blog-posts.ts:58-66 | the result is a permutation of notePosts ++ qiitaPosts, all from Qiita, newest first when every date parses |
| BlogPostsApi.QiitaFailureIsEmpty | src/pages/api/blog-posts.ts:34-50 | a failing Qiita fetch gives an empty list |
| GithubContrib.ToDay | src/pages/api/github-contrib.ts:73-78 | a day keeps date, colour and weekday, and `count` is its `contributionCount` |
| GithubContrib.ToWeek | src/pages/api/github-contrib.ts:71-79 | a week keeps its day count and order |
| GithubContrib.Reshape | src/pages/api/github-contrib.ts:71-80 | the weeks keep their count and order |
| GithubContrib.ReshapeRoundTrip | src/pages/api/github-contrib.ts:71-80 | renaming the fields back restores the upstream weeks exactly |
| GithubContrib.WeekTotalKept | src/pages/api/github-contrib.ts:73-78 | a week's summed count is unchanged by the reshaping |
| GithubContrib.GetCases | src/pages/api/github-contrib.ts:5-81 | 400 without a username, 500 without a token, the upstream status on failure, 500 with the serialised errors, else 200 with the total unchanged and the weeks intact |
| ContentSchema.ParsePlatform | src/content/config.ts:11 | a platform parses iff it is one of x, github, website, linkedin |
| ContentSchema.ParseString | src/content/config.ts:6-7 | a string field parses iff it is a string |
| ContentSchema.ParseScore | src/content/config.ts:22 | a score parses iff it is an integer in `[0, 100]` |
| ContentSchema.ParseStrings | src/content/config.ts:8 | a string array parses iff every element is a string |
| ContentSchema.ParseSocial | src/content/config.ts:10-14 | a social is accepted iff it is an object with a listed platform, a string label and a string url passing the url check, and the parsed fields are those values |
| ContentSchema.ParseSocials | src/content/config.ts:9-15 | a socials array parses iff every element does |
| ContentSchema.ParseTool | src/content/config.ts:20-23 | a tool is accepted iff it is an object with a string name and an integer score in `[0, 100]`, and the parsed fields are those values |
| ContentSchema.ParseTools | src/content/config.ts:19-24 | a tools array parses iff every element does |
| ContentSchema.ParseCategory | src/content/config.ts:17-25 | a category is accepted iff it has a string name and an array of tools that all parse, and the parsed fields are those values |
| ContentSchema.ParseCategories | src/content/config.ts:16-26 | a categories array parses iff every element does |
| ContentSchema.ParseProfile | src/content/config.ts:5-27 | a profile is accepted iff name and headline are strings, awards is an array of strings, and socials and toolCategories are arrays whose elements all parse; every parsed field is the value it came from |
| ContentSchema.ParsedProfileValid | src/content/config.ts:5-27 | every accepted profile has valid urls and every score in `[0, 100]` |
| ContentSchema.ProfileNeedsFields | src/content/config.ts:6-8 | a profile without string `name`, string `headline` or string-array `awards` is rejected |
| ContentSchema.ProfileRoundTrip | src/content/config.ts:5-27 | encoding a valid profile and parsing it back gives the same profile |
| ContentSchema.StringsRoundTrip | src/content/config.ts:8 | a string list survives encoding and parsing |
| ContentSchema.SocialRoundTrip | src/content/config.ts:10-14 | a social with a valid url survives encoding and parsing |
| ContentSchema.CategoryRoundTrip | src/content/config.ts:17-25 | a tool category whose scores lie in `[0, 100]` survives encoding and parsing |
| ContentSchema.SocialsRoundTrip | src/content/config.ts:9-15 | a list of socials with valid urls survives encoding and parsing |
| ContentSchema.CategoriesRoundTrip | src/content/config.ts:16-26 | tool categories with scores in range survive encoding and parsing |
| ContentSchema.ActivityAccepted | src/content/config.ts:32-39 | an activity is accepted iff it has string `dateLabel` and `title`, a coercible `sortDate`, optional string `period` and `description`, and absent or string `tags`; absent tags give [] |
| ContentSchema.ActivityRoundTrip | src/content/config.ts:32-39 | with a date encoding the coercion reads back, every activity survives encoding and parsing |
| Sorting.Compare | src/pages/api/articles.json.ts:56-59 | the comparator is 0 when a date is missing, and negative iff the first is newer |
| Sorting.CompareAntisymmetric | src/pages/api/blog-posts.ts:64-66 | swapping the arguments negates the comparator |
| Sorting.SortNewestFirst | src/pages/api/blog-posts.ts:64-66 | the sort returns a permutation of its input |
| Sorting.SortedWhenAllDated | src/pages/api/blog-posts.ts:64-66 | when every date is known, the result is newest first |

## Findings

| source | as written | input that shows it | evidently intended | confidence | as-written member | corrected member |
|---|---|---|---|---|---|---|
| src/components/layouts/ScreenMigration.tsx:167-174 | cleanup cancels only the outer animation frame's id; the nested frame's id is never stored | unmount after the outer frame ran and before the nested one: `startAnimation` still runs and, with `skipFadeIn`, reports the fade-in to an unmounted parent | no callback after cleanup | not executed; high | ScreenMigration.CleanupMissesInnerFrame | ScreenMigration.NothingAfterCleanup |
| src/components/layouts/ScreenMigration.tsx:147-158 | the container's opacity tween is not tracked, so cleanup cannot kill it | unmount while the container fades: its `onComplete` still removes `showMigration` and reports the fade-out | no callback after cleanup | not executed; high | ScreenMigration.CleanupMissesContentTween | ScreenMigration.NothingAfterCleanup |

## Left out

- Rendering and animation libraries (tweens, timelines, easing, durations, Observer, ScrollTrigger, AnimatePresence, three.js, charts, shaders). Only "animation completed" is modelled, as an event.
- Floating-point geometry: `Math.hypot`/`Math.sqrt` distances are supplied values. Pixel sizes are taken as integers.
- Network and browser I/O: `fetch`, sessionStorage, the DOM, history, `requestAnimationFrame` and `setTimeout` are fields, inputs and events, not real asynchrony. `ScrollTrigger.refresh()` is not modelled.
- Sorting.SortNewestFirst: `Array.prototype.sort` is modelled as a stable insertion sort. With a missing or unparseable date the comparator is not a consistent order, and the order the engine produces is unspecified. The model proves newest-first only when every date parses.
- Loading.ShuffleGroups: the per-group shuffle is stated by the shuffle function. The in-place loop is `Shuffle.ShuffleInPlace`, which is proved equal to that function.
- Navigation: two calls in the same React tick read the same stale `currentPath`. The model applies each state update before the next event.
- MainPageAnimation: `Array.from` splits the text by code point. The model splits it by `char`. The rotating-word tweens are tracked but their content is not modelled.
- BlogPostsApi: the `GET` handler's `catch` (500, "Failed to fetch blog posts") is unreachable, because both fetch helpers catch every error. It is not modelled.
- GithubContrib: a thrown `fetch` or `res.json()` is not caught by the endpoint. The model does not include it. `GraphQLErrors` stands for a truthy `errors` field, already serialised.
- ArticlesApi: the debug `console.log` calls are not modelled.
- BlogPostsApi.Description: the model counts `char`s, while `substring(0, 200)` counts UTF-16 code units and can split a surrogate pair.
- ContentSchema: `z.string().url()` and `z.coerce.date()` are supplied predicates.
- The contact forms, `GithubContrib3D`, presentational and duplicate components, pure timeline configuration, the unfinished `Loaing.tsx` stub, and build configuration are not part of this model.
