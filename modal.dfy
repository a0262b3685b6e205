/** The modal: open while its `contentType` is truthy, it locks page
    scrolling, closes on Escape, and shows the profile or the lab. */
module Modal {
  import opened Wrappers
  import opened Text

  datatype Content = ProfileContent | LabContent

  predicate IsOpen(contentType: Option<string>)
  {
    Truthy(contentType)
  }

  /** `renderContent`: None when closed or for an unknown content type. */
  function RenderContent(contentType: Option<string>): (c: Option<Content>)
    ensures c == Some(ProfileContent) <==> contentType == Some("profile")
    ensures c == Some(LabContent) <==> contentType == Some("lab")
    ensures c.Some? ==> IsOpen(contentType)
  {
    if !IsOpen(contentType) then None
    else match contentType.value
      case "profile" => Some(ProfileContent)
      case "lab" => Some(LabContent)
      case _ => None
  }

  /** The body's overflow style the effect sets for a content type. */
  function Overflow(contentType: Option<string>): (style: string)
    ensures style == "hidden" <==> IsOpen(contentType)
    ensures style == "" <==> !IsOpen(contentType)
  {
    if IsOpen(contentType) then "hidden" else ""
  }

  /** `overflow`, whether the Escape listener is attached, and how many
      times `onClose` has been called. */
  datatype ModalState = ModalState(contentType: Option<string>, overflow: string,
                                   listening: bool, closeCalls: nat)

  /** Mount or a change of `contentType`: the previous effects' cleanups run
      (overflow "" and listener removed), then the new effects. */
  function OnContentType(s: ModalState, contentType: Option<string>): ModalState
  {
    s.(contentType := contentType, overflow := Overflow(contentType), listening := IsOpen(contentType))
  }

  function OnUnmount(s: ModalState): ModalState
  {
    s.(overflow := "", listening := false)
  }

  /** A key press reaches `onClose` only through the listener, and only for Escape. */
  function OnKey(s: ModalState, key: string): ModalState
  {
    if s.listening && key == "Escape" then s.(closeCalls := s.closeCalls + 1) else s
  }

  /** Where a click lands: the backdrop (the outer element), the close
      button, or anywhere else inside the panel. */
  datatype Target = Backdrop | CloseButton | Panel

  /** A click on the backdrop calls `onClose`; the close button calls it and
      the panel then stops the click from reaching the backdrop; any other
      click inside the panel only stops propagating. Nothing is rendered while
      closed. */
  function OnClick(s: ModalState, target: Target): ModalState
  {
    if IsOpen(s.contentType) && target != Panel then s.(closeCalls := s.closeCalls + 1) else s
  }

  datatype Event = SetContent(contentType: Option<string>) | Key(key: string) | Click(target: Target) | Unmount

  function Step(s: ModalState, e: Event): ModalState
  {
    match e
    case SetContent(c) => OnContentType(s, c)
    case Key(k) => OnKey(s, k)
    case Click(p) => OnClick(s, p)
    case Unmount => OnUnmount(s)
  }

  function Run(s: ModalState, evs: seq<Event>): ModalState
    decreases |evs|
  {
    if evs == [] then s else Run(Step(s, evs[0]), evs[1..])
  }

  /** While mounted, scrolling is locked exactly while the modal is open and
      the Escape listener exists exactly then. */
  predicate Synced(s: ModalState)
  {
    s.overflow == Overflow(s.contentType) && s.listening == IsOpen(s.contentType)
  }

  lemma {:induction false} MountedStaysSynced(s: ModalState, evs: seq<Event>)
    requires Synced(s)
    requires forall i :: 0 <= i < |evs| ==> !evs[i].Unmount?
    ensures Synced(Run(s, evs))
    decreases |evs|
  {
    if evs != [] {
      MountedStaysSynced(Step(s, evs[0]), evs[1..]);
    }
  }

  /** Nothing calls `onClose` while the modal is closed. */
  lemma ClosedNeverCloses(s: ModalState, e: Event)
    requires Synced(s) && !IsOpen(s.contentType) && !e.SetContent?
    ensures Step(s, e).closeCalls == s.closeCalls
  {
  }

  /** On an open modal, a key press or click calls `onClose` exactly once when
      it is Escape, a backdrop click or a close-button click, and otherwise not
      at all; neither changes anything else. */
  lemma OpenCloses(s: ModalState, e: Event)
    requires Synced(s) && IsOpen(s.contentType)
    requires e.Key? || e.Click?
    ensures Step(s, e).closeCalls == s.closeCalls + 1 <==>
      e == Key("Escape") || e == Click(Backdrop) || e == Click(CloseButton)
    ensures Step(s, e).closeCalls == s.closeCalls || Step(s, e).closeCalls == s.closeCalls + 1
    ensures Step(s, e).(closeCalls := s.closeCalls) == s
  {
  }

  /** Unmounting always restores page scrolling and removes the listener, and
      after that no key press calls `onClose`. */
  lemma {:induction false} UnmountReleases(s: ModalState, keys: seq<string>)
    ensures OnUnmount(s).overflow == ""
    ensures RunKeys(OnUnmount(s), keys) == OnUnmount(s)
    decreases |keys|
  {
    if keys != [] {
      UnmountReleases(s, keys[1..]);
    }
  }

  function RunKeys(s: ModalState, keys: seq<string>): ModalState
    decreases |keys|
  {
    if keys == [] then s else RunKeys(OnKey(s, keys[0]), keys[1..])
  }

  class ModalComponent {
    var contentType: Option<string>
    var overflow: string
    var listening: bool
    var closeCalls: nat

    function State(): ModalState
      reads this
    {
      ModalState(contentType, overflow, listening, closeCalls)
    }

    constructor (initial: Option<string>)
      ensures State() == OnContentType(ModalState(None, "", false, 0), initial)
      ensures Synced(State())
    {
      contentType := initial;
      closeCalls := 0;
      overflow := if Truthy(initial) then "hidden" else "";
      listening := Truthy(initial);
    }

    method SetContentType(c: Option<string>)
      modifies this
      ensures State() == OnContentType(old(State()), c)
    {
      overflow := "";
      listening := false;
      contentType := c;
      if Truthy(c) {
        overflow := "hidden";
        listening := true;
      }
    }

    method KeyDown(key: string)
      modifies this
      ensures State() == OnKey(old(State()), key)
    {
      if listening && key == "Escape" {
        closeCalls := closeCalls + 1;
      }
    }

    method Click(target: Target)
      modifies this
      ensures State() == OnClick(old(State()), target)
    {
      if Truthy(contentType) && target != Panel {
        closeCalls := closeCalls + 1;
      }
    }

    method Unmount()
      modifies this
      ensures State() == OnUnmount(old(State()))
    {
      overflow := "";
      listening := false;
    }
  }
}
