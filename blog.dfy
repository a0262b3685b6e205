/** The Blog page: one fetch of `/api/blog-posts`, a loading flag, an error
    message, and per-platform icons and colours. The fetch outcome is an
    input. */
module Blog {
  import opened Wrappers
  import opened Text

  /** `platform` is typed 'note' | 'qiita' but is whatever the API sent. */
  datatype BlogPost = BlogPost(id: string, title: string, url: string, platform: string,
                               publishedAt: string, description: Option<string>)

  datatype Response =
    | Ok(posts: Option<seq<BlogPost>>)     // the body's `posts` (None: missing or null)
    | NotOk
    | Thrown(message: Option<string>)      // Some iff an `Error` was thrown (bad JSON, network)

  const NotOkMessage := "Failed to fetch blog posts"
  const UnknownError := "Unknown error"

  const NoteIcon := "\U{1F4DD}"
  const QiitaIcon := "\U{1F4DA}"
  const OtherIcon := "\U{1F4C4}"

  function PlatformIcon(platform: string): (icon: string)
    ensures platform == "note" <==> icon == NoteIcon
    ensures platform == "qiita" <==> icon == QiitaIcon
    ensures platform != "note" && platform != "qiita" <==> icon == OtherIcon
  {
    match platform
    case "note" => NoteIcon
    case "qiita" => QiitaIcon
    case _ => OtherIcon
  }

  function PlatformColor(platform: string): (color: string)
    ensures platform == "note" <==> color == "bg-green-600 hover:bg-green-700"
    ensures platform == "qiita" <==> color == "bg-blue-600 hover:bg-blue-700"
    ensures platform != "note" && platform != "qiita" <==> color == "bg-gray-600 hover:bg-gray-700"
  {
    match platform
    case "note" => "bg-green-600 hover:bg-green-700"
    case "qiita" => "bg-blue-600 hover:bg-blue-700"
    case _ => "bg-gray-600 hover:bg-gray-700"
  }

  /** Icon and colour pick the same platform class. */
  lemma IconAndColorAgree(p: string, q: string)
    ensures PlatformIcon(p) == PlatformIcon(q) <==> PlatformColor(p) == PlatformColor(q)
  {
  }

  datatype BlogState = BlogState(posts: seq<BlogPost>, loading: bool, error: Option<string>)

  const Initial := BlogState([], true, None)

  /** The `try` / `catch` / `finally` of the fetch. */
  function OnResponse(s: BlogState, r: Response): BlogState
  {
    match r
    case Ok(posts) => s.(posts := if posts.Some? then posts.value else [], loading := false)
    case NotOk => s.(error := Some(NotOkMessage), loading := false)
    case Thrown(message) => s.(error := Some(if message.Some? then message.value else UnknownError), loading := false)
  }

  /** Every outcome ends the loading state; a success keeps the error
      untouched and a failure keeps the posts untouched. */
  lemma ResponseOutcome(s: BlogState, r: Response)
    ensures !OnResponse(s, r).loading
    ensures r.Ok? ==> OnResponse(s, r).error == s.error
    ensures r.Ok? && r.posts.None? ==> OnResponse(s, r).posts == []
    ensures !r.Ok? ==> OnResponse(s, r).posts == s.posts && OnResponse(s, r).error.Some?
    ensures r.NotOk? || (r.Thrown? && r.message.None?) ==> Truthy(OnResponse(s, r).error)
  {
  }

  datatype View = View(spinner: bool, errorBox: bool, emptyNote: bool, list: bool)

  function ViewOf(s: BlogState): View
  {
    View(s.loading, Truthy(s.error),
         !s.loading && !Truthy(s.error) && |s.posts| == 0,
         !s.loading && !Truthy(s.error) && |s.posts| > 0)
  }

  /** At most one of the empty note and the list shows; neither shows beside
      the spinner or the error; once loaded without error exactly one does. */
  lemma ViewsExclusive(s: BlogState)
    ensures var v := ViewOf(s);
      !(v.emptyNote && v.list) &&
      (v.spinner || v.errorBox ==> !v.emptyNote && !v.list) &&
      (!v.spinner && !v.errorBox ==> v.emptyNote != v.list)
  {
  }

  /** From the initial state one response decides the page: the list of the
      delivered posts, the empty note, or the error. */
  lemma FirstResponseView(r: Response)
    ensures var v := ViewOf(OnResponse(Initial, r));
      !v.spinner &&
      (r.Ok? && r.posts.Some? && r.posts.value != [] ==> v.list && !v.errorBox) &&
      (r.Ok? && (r.posts.None? || r.posts.value == []) ==> v.emptyNote) &&
      (r.NotOk? ==> v.errorBox && !v.list && !v.emptyNote)
  {
  }

  class BlogPage {
    var posts: seq<BlogPost>
    var loading: bool
    var error: Option<string>

    function State(): BlogState
      reads this
    {
      BlogState(posts, loading, error)
    }

    constructor ()
      ensures State() == Initial
    {
      posts, loading, error := [], true, None;
    }

    method Receive(r: Response)
      modifies this
      ensures State() == OnResponse(old(State()), r)
    {
      loading := true;
      match r {
        case Ok(delivered) =>
          posts := if delivered.Some? then delivered.value else [];
        case NotOk =>
          error := Some(NotOkMessage);
        case Thrown(message) =>
          error := Some(if message.Some? then message.value else UnknownError);
      }
      loading := false;
    }
  }
}
