/** The `/api/blog-posts` endpoint: it gathers posts from note (which always
    contributes none) and from Qiita, then orders them newest first. The
    upstream responses and the date parser are inputs. */
module BlogPostsApi {
  import opened Wrappers
  import opened Text
  import Sorting

  datatype BlogPost = BlogPost(id: string, title: string, url: string, platform: string,
                               publishedAt: string, description: Option<string>)

  datatype QiitaItem = QiitaItem(id: string, title: string, url: string, createdAt: string, body: string)

  /** What the note RSS request produced; its content is never read. */
  datatype NoteResponse = NoteNotOk | NoteOk | NoteFailed
  /** `Failed` covers a network error, an unreadable body and an item whose
      fields cannot be read; the source catches all of them. */
  datatype QiitaResponse = QiitaNotOk | QiitaOk(items: seq<QiitaItem>) | QiitaFailed

  const NotePlaceholder := "your-note-user-id"
  const QiitaPlaceholder := "your-qiita-user-id"
  const DescriptionLength := 200

  /** A missing or empty query parameter falls back to the placeholder id. */
  function UserId(param: Option<string>, placeholder: string): (id: string)
    ensures Truthy(param) ==> id == param.value
    ensures !Truthy(param) ==> id == placeholder
  {
    OrElse(param, placeholder)
  }

  /** `fetchNotePosts`: the RSS feed is fetched but never parsed. */
  function FetchNotePosts(response: NoteResponse): (posts: seq<BlogPost>)
    ensures posts == []
  {
    match response
    case NoteNotOk => []
    case NoteOk => []
    case NoteFailed => []
  }

  /** `created_at.split('T')[0]`: everything before the first 'T'. */
  function DatePart(createdAt: string): (d: string)
    ensures 'T' !in d
    ensures d <= createdAt
    ensures d == createdAt || createdAt[|d|] == 'T'
  {
    if createdAt == [] || createdAt[0] == 'T' then []
    else [createdAt[0]] + DatePart(createdAt[1..])
  }

  /** A date without a 'T' is kept whole, and one with a 'T' loses the time part. */
  lemma {:induction false} DatePartOfTimestamp(date: string, time: string)
    requires 'T' !in date
    ensures DatePart(date + "T" + time) == date
    ensures DatePart(date) == date
  {
    if date != [] {
      assert (date + "T" + time)[1..] == date[1..] + "T" + time;
      assert date[0] in date;
      assert forall c :: c in date[1..] ==> c in date;
      DatePartOfTimestamp(date[1..], time);
    }
  }

  /** `body.substring(0, 200) + '...'`. */
  function Description(body: string): (d: string)
    ensures 3 <= |d| <= DescriptionLength + 3
    ensures d[|d| - 3..] == "..."
    ensures d[..|d| - 3] <= body
    ensures |body| <= DescriptionLength ==> d == body + "..."
    ensures |body| > DescriptionLength ==> |d| == DescriptionLength + 3
  {
    (if |body| <= DescriptionLength then body else body[..DescriptionLength]) + "..."
  }

  function ToPost(item: QiitaItem): (p: BlogPost)
    ensures p.id == "qiita-" + item.id && p.platform == "qiita"
    ensures p.title == item.title && p.url == item.url
    ensures p.publishedAt == DatePart(item.createdAt)
    ensures p.description == Some(Description(item.body))
  {
    BlogPost("qiita-" + item.id, item.title, item.url, "qiita",
             DatePart(item.createdAt), Some(Description(item.body)))
  }

  /** `fetchQiitaPosts`: one post per item, in order; nothing on any failure. */
  function FetchQiitaPosts(response: QiitaResponse): (posts: seq<BlogPost>)
    ensures !response.QiitaOk? ==> posts == []
    ensures response.QiitaOk? ==> (|posts| == |response.items| &&
      forall i :: 0 <= i < |posts| ==> posts[i] == ToPost(response.items[i]))
  {
    match response
    case QiitaOk(items) => seq(|items|, i requires 0 <= i < |items| => ToPost(items[i]))
    case _ => []
  }

  function PostTime(date: string -> Option<int>): BlogPost -> Option<int>
  {
    (p: BlogPost) => date(p.publishedAt)
  }

  /** The `GET` handler's body: both lists merged and sorted. */
  function AllPosts(note: NoteResponse, qiita: QiitaResponse, date: string -> Option<int>): seq<BlogPost>
  {
    Sorting.SortNewestFirst(PostTime(date), FetchNotePosts(note) + FetchQiitaPosts(qiita))
  }

  predicate FromQiita(p: BlogPost)
  {
    p.platform == "qiita" && |p.id| >= 6 && p.id[..6] == "qiita-"
  }

  lemma QiitaPostsFromQiita(qiita: QiitaResponse)
    ensures forall p :: p in FetchQiitaPosts(qiita) ==> FromQiita(p)
  {
    forall p | p in FetchQiitaPosts(qiita)
      ensures FromQiita(p)
    {
      var i :| 0 <= i < |FetchQiitaPosts(qiita)| && FetchQiitaPosts(qiita)[i] == p;
      assert p == ToPost(qiita.items[i]);
      assert p.id == "qiita-" + qiita.items[i].id;
    }
  }

  /** The response is a permutation of the Qiita posts (note contributes
      none), every post is a Qiita one, and when every date parses the list
      is newest first. */
  lemma AllPostsSpec(note: NoteResponse, qiita: QiitaResponse, date: string -> Option<int>)
    ensures multiset(AllPosts(note, qiita, date)) == multiset(FetchNotePosts(note) + FetchQiitaPosts(qiita))
    ensures multiset(AllPosts(note, qiita, date)) == multiset(FetchQiitaPosts(qiita))
    ensures forall p :: p in AllPosts(note, qiita, date) ==> FromQiita(p)
    ensures Sorting.AllDated(PostTime(date), AllPosts(note, qiita, date)) ==>
      Sorting.NewestFirst(PostTime(date), AllPosts(note, qiita, date))
  {
    var qiitaPosts := FetchQiitaPosts(qiita);
    var merged := FetchNotePosts(note) + qiitaPosts;
    var r := AllPosts(note, qiita, date);
    assert merged == qiitaPosts;
    assert multiset(r) == multiset(qiitaPosts);
    QiitaPostsFromQiita(qiita);
    forall p | p in r
      ensures FromQiita(p)
    {
      assert p in multiset(r);
      assert p in qiitaPosts;
    }
    if Sorting.AllDated(PostTime(date), r) {
      forall x | x in merged ensures PostTime(date)(x).Some? {
        assert x in multiset(r);
      }
      Sorting.SortedWhenAllDated(PostTime(date), merged);
    }
  }

  /** A Qiita failure of any kind yields an empty, successful response. */
  lemma QiitaFailureIsEmpty(note: NoteResponse, qiita: QiitaResponse, date: string -> Option<int>)
    requires !qiita.QiitaOk? || qiita.items == []
    ensures AllPosts(note, qiita, date) == []
  {
  }
}
