/** The Notes page: it fetches `/api/articles.json` once, keeps either the
    articles or an error message, shows a status line, and lays the articles
    out as a wheel-scrolled list. The outcome of the fetch (a non-ok status
    with or without a readable body, an ok payload, or a thrown error) is an
    input; `aborted` is set by the effect's cleanup. */
module Notes {
  import opened Wrappers
  import opened Text
  import WheelList

  datatype Article = Article(title: string, url: string, publishedAt: Option<string>)

  /** What the fetch produced. */
  datatype Response =
    | NotOk(status: nat, body: Option<Option<string>>)   // body None: unreadable JSON; Some(error field)
    | OkPayload(items: Option<seq<Article>>, error: Option<string>)   // items: Some iff an array
    | Thrown(message: Option<string>)                   // message: Some iff an `Error`

  const NoArticlesMessage := "記事データが見つかりませんでした"
  const FetchErrorMessage := "An error occurred while fetching articles"

  datatype NotesState = NotesState(items: seq<Article>, err: Option<string>, aborted: bool)

  const Initial := NotesState([], None, false)

  /** The message of a non-ok response: the body's `error`, else one naming the status. */
  function NotOkMessage(status: nat, body: Option<Option<string>>): (m: string)
    ensures m != ""
    ensures body.None? ==> m == "HTTP " + NatToString(status)
    ensures body.Some? && Truthy(body.value) ==> m == body.value.value
    ensures body.Some? && !Truthy(body.value) ==> m == "Failed to load articles (" + NatToString(status) + ")"
  {
    var errorField := if body.None? then Some("HTTP " + NatToString(status)) else body.value;
    OrElse(errorField, "Failed to load articles (" + NatToString(status) + ")")
  }

  /** The fetch effect's state updates; nothing changes once aborted. */
  function OnResponse(s: NotesState, r: Response): NotesState
  {
    if s.aborted then s
    else match r
      case NotOk(status, body) => s.(items := [], err := Some(NotOkMessage(status, body)))
      case OkPayload(items, error) =>
        if items.Some? then s.(items := items.value, err := None)
        else s.(items := [], err := Some(OrElse(error, NoArticlesMessage)))
      case Thrown(message) =>
        s.(items := [], err := Some(if message.Some? then message.value else FetchErrorMessage))
  }

  function OnCleanup(s: NotesState): NotesState
  {
    s.(aborted := true)
  }

  /** An error and articles are never kept together. */
  predicate ErrorClearsItems(s: NotesState)
  {
    s.err.Some? ==> s.items == []
  }

  lemma ResponseKeepsInvariant(s: NotesState, r: Response)
    requires ErrorClearsItems(s)
    ensures ErrorClearsItems(OnResponse(s, r))
  {
  }

  /** An array payload is shown as is; every other outcome empties the list
      and records a message. */
  lemma ResponseOutcomes(s: NotesState, r: Response)
    requires !s.aborted
    ensures r.OkPayload? && r.items.Some? ==> OnResponse(s, r) == s.(items := r.items.value, err := None)
    ensures !(r.OkPayload? && r.items.Some?) ==> OnResponse(s, r).items == [] && OnResponse(s, r).err.Some?
    ensures r.OkPayload? && r.items.None? ==> OnResponse(s, r).err.value != ""
    ensures r.NotOk? ==> OnResponse(s, r).err.value != ""
  {
  }

  /** The status named in a non-ok message reads back as the status. */
  lemma StatusReadBack(status: nat)
    ensures var m := NotOkMessage(status, None);
      m[5..] == NatToString(status) && IsDigits(m[5..]) && DigitsValue(m[5..]) == status
  {
    NatToStringRoundTrip(status);
  }

  /** After cleanup, a late response changes nothing. */
  lemma AbortedIgnoresResponse(s: NotesState, r: Response)
    ensures OnResponse(OnCleanup(s), r) == OnCleanup(s)
  {
  }

  datatype Status = ShowError(message: string) | ShowLoading | NoStatus

  /** `formattedStatus`. */
  function FormattedStatus(s: NotesState): Status
  {
    if Truthy(s.err) then ShowError(s.err.value)
    else if |s.items| == 0 then ShowLoading
    else NoStatus
  }

  /** The status line: the error whenever there is a non-empty one; otherwise
      "Loading..." exactly while the list is empty. */
  lemma StatusCases(s: NotesState)
    ensures FormattedStatus(s).ShowError? <==> Truthy(s.err)
    ensures FormattedStatus(s) == ShowLoading <==> !Truthy(s.err) && s.items == []
    ensures FormattedStatus(s) == NoStatus <==> !Truthy(s.err) && s.items != []
  {
  }

  /** A failed load never leaves the page silent: it shows its message or,
      for an `Error` with an empty message, "Loading...". */
  lemma FailureIsVisible(s: NotesState, r: Response)
    requires !s.aborted && !(r.OkPayload? && r.items.Some?)
    ensures FormattedStatus(OnResponse(s, r)) != NoStatus
  {
  }

  class NotesPage {
    var items: seq<Article>
    var err: Option<string>
    var aborted: bool

    function State(): NotesState
      reads this
    {
      NotesState(items, err, aborted)
    }

    constructor ()
      ensures State() == Initial
    {
      items, err, aborted := [], None, false;
    }

    method Receive(r: Response)
      modifies this
      ensures State() == OnResponse(old(State()), r)
    {
      if aborted {
        return;
      }
      match r
      case NotOk(status, body) =>
        items := [];
        err := Some(NotOkMessage(status, body));
      case OkPayload(payloadItems, error) =>
        if payloadItems.Some? {
          items := payloadItems.value;
          err := None;
        } else {
          items := [];
          err := Some(OrElse(error, NoArticlesMessage));
        }
      case Thrown(message) =>
        items := [];
        err := Some(if message.Some? then message.value else FetchErrorMessage);
    }

    method Cleanup()
      modifies this
      ensures State() == OnCleanup(old(State()))
    {
      aborted := true;
    }
  }

  /** The layout effect: with no rendered item it does nothing; otherwise it
      resets the position to the top and attaches the wheel handler. */
  method LayOut(scroller: WheelList.Scroller, rendered: nat, clientHeight: real)
    requires clientHeight >= 0.0
    modifies scroller
    ensures rendered == 0 ==> scroller.State() == old(scroller.State())
    ensures rendered > 0 ==> scroller.State() == WheelList.OnAttach(old(scroller.State()), rendered, clientHeight, true)
    ensures rendered > 0 ==> scroller.scroll == 0.0 && scroller.attached
  {
    if rendered == 0 {
      return;
    }
    scroller.Attach(rendered, clientHeight, true);
  }
}
