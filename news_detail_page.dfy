/** The news detail page: the comment submission guards and the fallbacks the
    page shows for missing fields. */
module NewsDetailPage {
  import opened Common

  datatype NewsComment = NewsComment(id: int, writerName: string, content: string, createdAt: string)

  datatype News = News(id: int, title: string, description: Option<string>, category: Option<string>,
                       provider: string, pubDate: string, link: string,
                       comments: Option<seq<NewsComment>>)

  const DefaultDescription := "뉴스 요약"
  const DefaultCategory := "뉴스"

  /** The meta description, `description ? description.substring(0, 100) : "뉴스 요약"`:
      the first 100 characters of a non-empty description (all of a shorter one). */
  function MetaDescription(description: Option<string>): (r: string)
    ensures description.None? || description == Some("") ==> r == DefaultDescription
    ensures description.Some? && description.value != "" ==>
              |r| == (if |description.value| < 100 then |description.value| else 100) &&
              r == description.value[..|r|]
  {
    match description
    case Some(d) => if d == "" then DefaultDescription else if |d| < 100 then d else d[..100]
    case None => DefaultDescription
  }

  /** A description of at most 100 characters is used as it is. */
  lemma ShortDescriptionKept(d: string)
    requires d != "" && |d| <= 100
    ensures MetaDescription(Some(d)) == d
  {
  }

  /** The number in the discussion header, `comments ? comments.length : 0`. */
  function CommentCount(news: News): (n: nat)
    ensures news.comments.None? ==> n == 0
    ensures news.comments.Some? ==> n == |news.comments.value|
  {
    if news.comments.Some? then |news.comments.value| else 0
  }

  /** The category badge, `category || '뉴스'`: never empty. */
  function CategoryLabel(news: News): (r: string)
    ensures r != ""
    ensures news.category.Some? && news.category.value != "" ==> r == news.category.value
    ensures news.category.None? || news.category == Some("") ==> r == DefaultCategory
  {
    OrElse(news.category, DefaultCategory)
  }

  datatype Call = PostComment(newsId: int, content: string) | FetchDetail(newsId: int)

  class NewsDetailView {
    const newsId: int
    var news: Option<News>
    var commentText: string

    constructor (newsId: int)
      ensures this.newsId == newsId && news == None && commentText == ""
    {
      this.newsId := newsId;
      news, commentText := None, "";
    }

    /** The detail effect, run on mount and when the route id changes. */
    method DetailEffect() returns (calls: seq<Call>)
      ensures calls == [FetchDetail(newsId)]
    {
      calls := [FetchDetail(newsId)];
    }

    method DetailLoaded(response: Response<News>) returns (leave: bool)
      modifies this`news
      ensures leave == response.Err?
      ensures news == if response.Ok? then Some(response.data) else old(news)
    {
      leave := response.Err?;
      if response.Ok? {
        news := Some(response.data);
      }
    }

    method TypeComment(text: string)
      modifies this`commentText
      ensures commentText == text
    {
      commentText := text;
    }

    /** `handleCommentSubmit`: the login is checked first (with an alert),
        then blank text is dropped silently; an accepted comment clears the
        input and triggers a refetch, a failed one changes nothing. The
        returned flag says whether the login alert was shown. */
    method HandleCommentSubmit(user: Option<User>, response: Response<()>)
      returns (calls: seq<Call>, loginAlert: bool)
      modifies this`commentText
      ensures loginAlert <==> user.None?
      ensures user.None? || IsBlank(old(commentText)) ==> calls == [] && commentText == old(commentText)
      ensures user.Some? && !IsBlank(old(commentText)) ==>
                calls == [PostComment(newsId, old(commentText))] +
                         (if response.Ok? then [FetchDetail(newsId)] else []) &&
                commentText == (if response.Ok? then "" else old(commentText))
    {
      if user.None? {
        return [], true;
      }
      loginAlert := false;
      if IsBlank(commentText) {
        return [], false;
      }
      calls := [PostComment(newsId, commentText)];
      if response.Ok? {
        commentText := "";
        calls := calls + [FetchDetail(newsId)];
      }
    }
  }
}
