/** The `/api/articles.json` endpoint: it resolves a note.com user name, fetches
    that creator's contents, maps each item to an `Article`, keeps the complete
    ones and orders them newest first. The upstream response and the date
    parser are inputs. */
module ArticlesApi {
  import opened Wrappers
  import opened Text
  import Sorting

  datatype Article = Article(title: string, url: string, publishedAt: string)

  /** One upstream content item; a field that is absent or null is `None`. */
  datatype Item = Item(name: Option<string>, title: Option<string>, key: Option<string>,
                       publishAt: Option<string>, publishedAt: Option<string>, url: Option<string>)

  datatype Upstream =
    | UpstreamNotOk(status: nat, text: string)
    | UpstreamOk(contents: Option<seq<Item>>)    // `json.data?.contents`
    | UpstreamThrew(message: Option<string>)     // Some iff an `Error`

  datatype Body = ErrorBody(error: string) | ItemsBody(items: seq<Article>)
  datatype ApiResponse = ApiResponse(status: nat, body: Body)

  /** The environment's user name wins over the `user` query parameter; None when neither is usable. */
  function Username(env: Option<string>, param: Option<string>): (u: Option<string>)
    ensures u.Some? <==> Truthy(env) || Truthy(param)
    ensures Truthy(env) ==> u == env
    ensures !Truthy(env) && Truthy(param) ==> u == param
    ensures u.Some? ==> u.value != ""
  {
    if Truthy(env) then env else if Truthy(param) then param else None
  }

  /** `https://note.com/${username}/n/${key}`. */
  function ArticleUrl(username: string, key: string): string
  {
    "https://note.com/" + username + "/n/" + key
  }

  /** The mapping of one upstream item. */
  function ToArticle(username: string, item: Item): (a: Article)
    ensures a.title == OrElse(item.name, OrElse(item.title, ""))
    ensures a.publishedAt == OrElse(item.publishAt, OrElse(item.publishedAt, ""))
  {
    var key := OrElse(item.key, "");
    Article(OrElse(item.name, OrElse(item.title, "")),
            if key != "" then ArticleUrl(username, key) else OrElse(item.url, ""),
            OrElse(item.publishAt, OrElse(item.publishedAt, "")))
  }

  /** The article's url is built from a non-empty key, or else is the item's own url. */
  lemma UrlChoice(username: string, item: Item)
    ensures Truthy(item.key) ==> ToArticle(username, item).url == ArticleUrl(username, item.key.value)
    ensures !Truthy(item.key) ==> ToArticle(username, item).url == OrElse(item.url, "")
    ensures Truthy(item.key) && username != "" ==> ToArticle(username, item).url != ""
  {
  }

  predicate Complete(a: Article)
  {
    a.title != "" && a.url != ""
  }

  /** The `filter` step. */
  function KeepComplete(s: seq<Article>): (r: seq<Article>)
    ensures forall a :: a in r <==> a in s && Complete(a)
    ensures forall a :: multiset(r)[a] == (if Complete(a) then multiset(s)[a] else 0)
    ensures |r| <= |s|
    ensures multiset(r) <= multiset(s)
  {
    if s == [] then []
    else
      assert s == s[..|s| - 1] + [s[|s| - 1]];
      if Complete(s[|s| - 1]) then KeepComplete(s[..|s| - 1]) + [s[|s| - 1]]
      else KeepComplete(s[..|s| - 1])
  }

  /** The comparator's date: unknown for an empty string or an unparsable one. */
  function ArticleTime(date: string -> Option<int>): Article -> Option<int>
  {
    (a: Article) => if a.publishedAt == "" then None else date(a.publishedAt)
  }

  /** The `map` step: one article per upstream item, in order. */
  function MapItems(username: string, contents: seq<Item>): (r: seq<Article>)
    ensures |r| == |contents| && forall i :: 0 <= i < |contents| ==> r[i] == ToArticle(username, contents[i])
  {
    seq(|contents|, i requires 0 <= i < |contents| => ToArticle(username, contents[i]))
  }

  function Articles(username: string, contents: seq<Item>, date: string -> Option<int>): (r: seq<Article>)
  {
    Sorting.SortNewestFirst(ArticleTime(date), KeepComplete(MapItems(username, contents)))
  }

  /** The endpoint's answer: a permutation of the complete mapped items, each
      as often as it was mapped; every article is complete and comes from an
      upstream item; every complete mapped item is present; and when every date
      parses the list is newest first. */
  lemma ArticlesSpec(username: string, contents: seq<Item>, date: string -> Option<int>)
    ensures multiset(Articles(username, contents, date)) == multiset(KeepComplete(MapItems(username, contents)))
    ensures var r := Articles(username, contents, date);
      |r| <= |contents| &&
      (forall a :: a in r ==> Complete(a) && exists i :: 0 <= i < |contents| && a == ToArticle(username, contents[i])) &&
      (forall i :: 0 <= i < |contents| && Complete(ToArticle(username, contents[i])) ==> ToArticle(username, contents[i]) in r)
    ensures Sorting.AllDated(ArticleTime(date), Articles(username, contents, date)) ==>
      Sorting.NewestFirst(ArticleTime(date), Articles(username, contents, date))
  {
    var mapped := MapItems(username, contents);
    var kept := KeepComplete(mapped);
    var r := Articles(username, contents, date);
    assert multiset(r) == multiset(kept);
    forall a | a in r
      ensures Complete(a) && exists i :: 0 <= i < |contents| && a == ToArticle(username, contents[i])
    {
      assert a in multiset(kept);
      assert a in mapped;
    }
    forall i | 0 <= i < |contents| && Complete(ToArticle(username, contents[i]))
      ensures ToArticle(username, contents[i]) in r
    {
      assert mapped[i] in kept;
      assert mapped[i] in multiset(r);
    }
    if Sorting.AllDated(ArticleTime(date), r) {
      forall x | x in kept ensures ArticleTime(date)(x).Some? {
        assert x in multiset(r);
      }
      Sorting.SortedWhenAllDated(ArticleTime(date), kept);
    }
  }

  /** The `GET` handler. */
  function Get(env: Option<string>, param: Option<string>, upstream: Upstream,
               date: string -> Option<int>): ApiResponse
  {
    var username := Username(env, param);
    if username.None? then ApiResponse(400, ErrorBody("Username is required"))
    else match upstream
      case UpstreamNotOk(status, text) =>
        ApiResponse(status, ErrorBody("Failed to fetch articles: " + NatToString(status) + " " + text))
      case UpstreamOk(contents) =>
        ApiResponse(200, ItemsBody(Articles(username.value, if contents.Some? then contents.value else [], date)))
      case UpstreamThrew(message) =>
        ApiResponse(500, ErrorBody("Internal Server Error: " + if message.Some? then message.value else "Unknown error"))
  }

  /** Status and body by case: 400 exactly when no user name is usable, the
      upstream status for a failed fetch, 500 for a thrown error, and 200 with
      the articles (none when `contents` is missing) otherwise. */
  lemma GetCases(env: Option<string>, param: Option<string>, upstream: Upstream, date: string -> Option<int>)
    ensures var r := Get(env, param, upstream, date);
      (r.status == 400 && r.body == ErrorBody("Username is required")) <==> !Truthy(env) && !Truthy(param)
    ensures var r := Get(env, param, upstream, date);
      (Truthy(env) || Truthy(param)) ==>
        (upstream.UpstreamNotOk? ==> r.status == upstream.status && r.body.ErrorBody?) &&
        (upstream.UpstreamThrew? ==> r.status == 500 && r.body.ErrorBody?) &&
        (upstream.UpstreamOk? ==> r.status == 200 && r.body.ItemsBody?) &&
        (upstream == UpstreamOk(None) ==> r.body == ItemsBody([]))
  {
  }

  /** The status in a failed-fetch message reads back as the upstream status. */
  lemma NotOkNamesStatus(env: Option<string>, param: Option<string>, status: nat, text: string, date: string -> Option<int>)
    requires Truthy(env) || Truthy(param)
    ensures var r := Get(env, param, UpstreamNotOk(status, text), date);
      var digits := NatToString(status);
      var prefix := "Failed to fetch articles: ";
      r.body.error == prefix + digits + " " + text && DigitsValue(digits) == status
  {
    NatToStringRoundTrip(status);
  }
}
