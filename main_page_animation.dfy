/** The home-page intro (`MainPageAnimation`): page scroll is locked on mount and
    released at most once — by the animation that ends the intro, when the
    container is missing, when the animation library fails to load, or on
    teardown. The "My Journey..." text is typed out one character per timeline
    call. The animation library's loading and every animation callback are
    explicit events; the list of animations the effect tracks is a field. */
module MainPageAnimation {

  /** The animations the effect pushes onto its `animations` list. */
  datatype Anim = Typing | Curtain | Background | TextReveal | Delay | TextMove | Rotating

  /** The callbacks that call `releaseScroll`: the background timeline's
      `onComplete`, the delayed call, and the text tween's `onComplete`. */
  predicate Releases(a: Anim)
  {
    a == Background || a == Delay || a == TextMove
  }

  datatype Load = Pending | Failed | Loaded

  datatype IntroState = IntroState(
    htmlLocked: bool,        // "prevent-scroll" on <html>
    bodyLocked: bool,        // "prevent-scroll" on <body>
    scrollReleased: bool,
    releases: nat,           // times releaseScroll removed the classes
    load: Load,
    animations: seq<Anim>,   // the tracked list, in push order
    killed: nat,             // the first `killed` tracked animations were killed
    text: string,            // textContent of .my-journey-text
    originalText: string,
    typed: nat,              // character calls run so far
    typingActive: bool)      // "typing-active" class on the text

  /** Mount with a window: `lockScroll()`. */
  function Initial(text: string): IntroState
  {
    IntroState(true, true, false, 0, Pending, [], 0, text, "", 0, false)
  }

  /** `releaseScroll`: effective the first time only. */
  function ReleaseScroll(s: IntroState): IntroState
  {
    if s.scrollReleased then s
    else s.(scrollReleased := true, releases := s.releases + 1, htmlLocked := false, bodyLocked := false)
  }

  /** The animations a successful load pushes, in order, given which of the
      text, curtain and background elements exist. */
  function TrackedOnLoad(hasText: bool, hasCurtain: bool, hasBackground: bool): seq<Anim>
  {
    (if hasText then [Typing] else []) +
    (if hasCurtain then [Curtain] else []) +
    (if hasBackground then [Background] else if hasText then [TextReveal, Delay] else [Delay]) +
    (if hasText then [TextMove] else []) +
    [Rotating]
  }

  /** The `.catch` of the dynamic import. */
  function OnLoadFailed(s: IntroState): IntroState
  {
    ReleaseScroll(s.(load := Failed))
  }

  /** The `.then` of the dynamic import. */
  function OnLoaded(s: IntroState, hasContainer: bool, hasText: bool, hasCurtain: bool, hasBackground: bool): IntroState
  {
    if !hasContainer then ReleaseScroll(s.(load := Loaded))
    else
      var s1 := if hasText then s.(originalText := s.text, text := "", typingActive := true, typed := 0) else s;
      s1.(load := Loaded, animations := s.animations + TrackedOnLoad(hasText, hasCurtain, hasBackground))
  }

  /** An animation that was pushed and not (yet) killed. */
  predicate Live(s: IntroState, a: Anim)
  {
    s.killed <= |s.animations| && a in s.animations[s.killed..]
  }

  /** One character call of the typing timeline: `textContent += char`. */
  function OnTypeChar(s: IntroState): IntroState
  {
    if Live(s, Typing) && s.typed < |s.originalText| then
      s.(text := s.text + [s.originalText[s.typed]], typed := s.typed + 1)
    else s
  }

  /** The final call of the typing timeline. */
  function OnTypingDone(s: IntroState): IntroState
  {
    if Live(s, Typing) then s.(typingActive := false, text := s.originalText) else s
  }

  /** A callback of a live animation that calls `releaseScroll`. */
  function OnReleasingCallback(s: IntroState, a: Anim): IntroState
  {
    if Releases(a) && Live(s, a) then ReleaseScroll(s) else s
  }

  /** The effect's cleanup: kill every tracked animation, release scroll, and
      restore the text when the element is still there. */
  function OnTeardown(s: IntroState, hasTextElement: bool): IntroState
  {
    var s1 := ReleaseScroll(s.(killed := |s.animations|));
    if !hasTextElement then s1
    else if |s.originalText| > 0 then s1.(typingActive := false, text := s.originalText)
    else s1.(typingActive := false)
  }

  datatype Event =
    | LoadFailed
    | LoadDone(hasContainer: bool, hasText: bool, hasCurtain: bool, hasBackground: bool)
    | TypeChar
    | TypingDone
    | Callback(anim: Anim)
    | Teardown(hasTextElement: bool)

  function Step(s: IntroState, e: Event): IntroState
  {
    match e
    case LoadFailed => OnLoadFailed(s)
    case LoadDone(c, t, cu, b) => OnLoaded(s, c, t, cu, b)
    case TypeChar => OnTypeChar(s)
    case TypingDone => OnTypingDone(s)
    case Callback(a) => OnReleasingCallback(s, a)
    case Teardown(t) => OnTeardown(s, t)
  }

  function Run(s: IntroState, evs: seq<Event>): IntroState
    decreases |evs|
  {
    if evs == [] then s else Run(Step(s, evs[0]), evs[1..])
  }

  /** Scroll stays locked on both elements until the one release, which happens
      at most once. */
  predicate ReleaseInv(s: IntroState)
  {
    && s.htmlLocked == !s.scrollReleased
    && s.bodyLocked == !s.scrollReleased
    && s.releases == (if s.scrollReleased then 1 else 0)
    && s.killed <= |s.animations|
  }

  lemma StepKeepsReleaseInv(s: IntroState, e: Event)
    requires ReleaseInv(s)
    ensures ReleaseInv(Step(s, e))
  {
  }

  /** Whatever happens, `releaseScroll` takes effect at most once. */
  lemma {:induction false} ReleasedAtMostOnce(s: IntroState, evs: seq<Event>)
    requires ReleaseInv(s)
    ensures ReleaseInv(Run(s, evs)) && Run(s, evs).releases <= 1
    ensures s.scrollReleased ==> Run(s, evs).releases == s.releases
    decreases |evs|
  {
    if evs != [] {
      StepKeepsReleaseInv(s, evs[0]);
      ReleasedAtMostOnce(Step(s, evs[0]), evs[1..]);
    }
  }

  /** A missing container, a failed load and a teardown each leave scroll released. */
  lemma FallbacksRelease(s: IntroState, hasText: bool, hasCurtain: bool, hasBackground: bool, hasTextElement: bool)
    requires ReleaseInv(s)
    ensures OnLoaded(s, false, hasText, hasCurtain, hasBackground).scrollReleased
    ensures !OnLoadFailed(s).htmlLocked && !OnLoadFailed(s).bodyLocked
    ensures OnTeardown(s, hasTextElement).scrollReleased
  {
  }

  /** Whatever elements exist, a successful load tracks an animation whose
      completion releases scroll, so the intro never leaves scroll locked. */
  lemma LoadSchedulesRelease(hasText: bool, hasCurtain: bool, hasBackground: bool)
    ensures exists k :: (0 <= k < |TrackedOnLoad(hasText, hasCurtain, hasBackground)| &&
      Releases(TrackedOnLoad(hasText, hasCurtain, hasBackground)[k]))
  {
    var t := TrackedOnLoad(hasText, hasCurtain, hasBackground);
    var pre := (if hasText then [Typing] else []) + (if hasCurtain then [Curtain] else []);
    if hasBackground {
      assert t[|pre|] == Background;
    } else if hasText {
      assert t[|pre| + 1] == Delay;
    } else {
      assert t[|pre|] == Delay;
    }
  }

  /** Teardown kills every animation tracked so far, so none of their callbacks runs afterwards. */
  lemma TeardownKillsAll(s: IntroState, hasTextElement: bool, a: Anim)
    ensures !Live(OnTeardown(s, hasTextElement), a)
    ensures OnTypeChar(OnTeardown(s, hasTextElement)) == OnTeardown(s, hasTextElement)
    ensures OnReleasingCallback(OnTeardown(s, hasTextElement), a) == OnTeardown(s, hasTextElement)
  {
  }

  /** Teardown takes the typing marker off and puts back a non-empty original text. */
  lemma TeardownRestoresText(s: IntroState)
    ensures !OnTeardown(s, true).typingActive
    ensures |s.originalText| > 0 ==> OnTeardown(s, true).text == s.originalText
    ensures |s.originalText| == 0 ==> OnTeardown(s, true).text == s.text
  {
  }

  /** While typing, the text is exactly the first `typed` characters of the original. */
  predicate TypingInv(s: IntroState)
  {
    s.typingActive ==> s.typed <= |s.originalText| && s.text == s.originalText[..s.typed]
  }

  lemma LoadStartsTyping(s: IntroState, hasCurtain: bool, hasBackground: bool)
    ensures var t := OnLoaded(s, true, true, hasCurtain, hasBackground);
      t.typingActive && t.text == "" && t.originalText == s.text && TypingInv(t)
  {
  }

  lemma TypeCharKeepsPrefix(s: IntroState)
    requires TypingInv(s) && s.typingActive
    ensures TypingInv(OnTypeChar(s))
  {
    if Live(s, Typing) && s.typed < |s.originalText| {
      assert s.originalText[..s.typed + 1] == s.originalText[..s.typed] + [s.originalText[s.typed]];
    }
  }

  /** `k` character calls after the load leave the first `k` characters. */
  lemma {:induction false} TypedPrefix(s: IntroState, k: nat)
    requires TypingInv(s) && s.typingActive && Live(s, Typing)
    requires s.typed + k <= |s.originalText|
    ensures var t := Run(s, seq(k, _ => TypeChar));
      t.typingActive && t.typed == s.typed + k && t.text == s.originalText[..s.typed + k]
    decreases k
  {
    if k > 0 {
      var evs := seq(k, _ => TypeChar);
      TypeCharKeepsPrefix(s);
      var s' := OnTypeChar(s);
      assert evs[0] == TypeChar && evs[1..] == seq(k - 1, _ => TypeChar);
      assert Live(s', Typing) by { assert s'.animations == s.animations && s'.killed == s.killed; }
      TypedPrefix(s', k - 1);
    }
  }

  /** The final call shows the full original text and clears the marker. */
  lemma TypingDoneShowsAll(s: IntroState)
    requires Live(s, Typing)
    ensures OnTypingDone(s).text == s.originalText && !OnTypingDone(s).typingActive
  {
  }

  class Intro {
    var htmlLocked: bool
    var bodyLocked: bool
    var scrollReleased: bool
    var releases: nat
    var load: Load
    var animations: seq<Anim>
    var killed: nat
    var text: string
    var originalText: string
    var typed: nat
    var typingActive: bool

    function State(): IntroState
      reads this
    {
      IntroState(htmlLocked, bodyLocked, scrollReleased, releases, load, animations, killed,
                 text, originalText, typed, typingActive)
    }

    /** The effect's start on a client: nothing released, nothing tracked, scroll locked. */
    constructor (initialText: string)
      ensures State() == Initial(initialText) && ReleaseInv(State())
    {
      scrollReleased := false;
      releases := 0;
      load := Pending;
      animations := [];
      killed := 0;
      text := initialText;
      originalText := "";
      typed := 0;
      typingActive := false;
      htmlLocked := false;
      bodyLocked := false;
      new;
      LockScroll();
    }

    method LockScroll()
      modifies this
      ensures htmlLocked && bodyLocked
      ensures State() == old(State()).(htmlLocked := true, bodyLocked := true)
    {
      htmlLocked := true;
      bodyLocked := true;
    }

    method Release()
      modifies this
      ensures State() == ReleaseScroll(old(State()))
    {
      if scrollReleased {
        return;
      }
      scrollReleased := true;
      releases := releases + 1;
      htmlLocked := false;
      bodyLocked := false;
    }

    method LoadFailed()
      modifies this
      ensures State() == OnLoadFailed(old(State()))
    {
      load := Failed;
      Release();
    }

    method LoadDone(hasContainer: bool, hasText: bool, hasCurtain: bool, hasBackground: bool)
      modifies this
      ensures State() == OnLoaded(old(State()), hasContainer, hasText, hasCurtain, hasBackground)
    {
      load := Loaded;
      if !hasContainer {
        Release();
        return;
      }
      var pushed: seq<Anim> := [];
      if hasText {
        originalText := text;
        text := "";
        typingActive := true;
        typed := 0;
        pushed := pushed + [Typing];
      }
      if hasCurtain {
        pushed := pushed + [Curtain];
      }
      if hasBackground {
        pushed := pushed + [Background];
      } else if hasText {
        pushed := pushed + [TextReveal, Delay];
      } else {
        pushed := pushed + [Delay];
      }
      if hasText {
        pushed := pushed + [TextMove];
      }
      pushed := pushed + [Rotating];
      assert pushed == TrackedOnLoad(hasText, hasCurtain, hasBackground);
      animations := animations + pushed;
    }

    method TypeChar()
      modifies this
      ensures State() == OnTypeChar(old(State()))
    {
      if killed <= |animations| && Typing in animations[killed..] && typed < |originalText| {
        text := text + [originalText[typed]];
        typed := typed + 1;
      }
    }

    method TypingDone()
      modifies this
      ensures State() == OnTypingDone(old(State()))
    {
      if killed <= |animations| && Typing in animations[killed..] {
        typingActive := false;
        text := originalText;
      }
    }

    method Callback(a: Anim)
      modifies this
      ensures State() == OnReleasingCallback(old(State()), a)
    {
      if (a == Background || a == Delay || a == TextMove) && killed <= |animations| && a in animations[killed..] {
        Release();
      }
    }

    method Teardown(hasTextElement: bool)
      modifies this
      ensures State() == OnTeardown(old(State()), hasTextElement)
    {
      var original := originalText;
      killed := |animations|;
      Release();
      if hasTextElement {
        typingActive := false;
        if |original| > 0 {
          text := original;
        }
      }
    }
  }
}
