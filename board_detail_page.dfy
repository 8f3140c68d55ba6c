/** The board detail page: post ownership, the comment-count header, the
    rendered comment tree and the comment submission. */
module BoardDetailPage {
  import opened Common
  import opened Comments

  /** A board post; `replies` is the top of its comment tree and may be absent. */
  datatype Post = Post(id: int, title: string, content: string, category: string,
                       writerEmail: string, writerName: string, createdAt: string,
                       viewCount: int, replies: Option<seq<Comment>>)

  /** `user && post.writerEmail === user.email`: a post is owned by email. */
  predicate IsMyPost(user: Option<User>, post: Post)
  {
    user.Some? && post.writerEmail == user.value.email
  }

  /** Unlike comments, a post is owned by one email: two users who both own it
      are the same account, and nobody owns it while logged out. */
  lemma PostOwnershipIsByEmail(a: User, b: User, post: Post)
    ensures !IsMyPost(None, post)
    ensures IsMyPost(Some(a), post) && IsMyPost(Some(b), post) ==> a.email == b.email
    ensures IsMyPost(Some(a), post) <==> a.email == post.writerEmail
  {
  }

  /** The list of top-level replies, an absent one being empty. */
  function TopLevel(post: Post): seq<Comment>
  {
    if post.replies.Some? then post.replies.value else []
  }

  /** The header number, `post.replies?.length || 0`. */
  function CommentCountHeader(post: Post): (n: nat)
    ensures post.replies.None? ==> n == 0
    ensures post.replies.Some? ==> n == |post.replies.value|
  {
    |TopLevel(post)|
  }

  /** The header counts top-level replies only: it never exceeds the number of
      rendered comments, and equals it exactly when no reply has a reply. */
  lemma {:induction false} HeaderCountsTopLevelOnly(forest: seq<Comment>)
    ensures |forest| <= Size(forest)
    ensures |forest| == Size(forest) <==> forall i :: 0 <= i < |forest| ==> forest[i].children == []
  {
    if forest != [] {
      HeaderCountsTopLevelOnly(forest[1..]);
      if forest[0].children != [] {
        assert Size(forest[0].children) >= 1;
      }
      if forall i :: 0 <= i < |forest[1..]| ==> forest[1..][i].children == [] {
        if forest[0].children == [] {
          forall i | 0 <= i < |forest| ensures forest[i].children == [] {
            if i > 0 {
              assert forest[i] == forest[1..][i - 1];
            }
          }
        }
      } else {
        var i :| 0 <= i < |forest[1..]| && forest[1..][i].children != [];
        assert forest[i + 1] == forest[1..][i];
      }
    }
  }

  /** The comment items of the page, in display order. */
  function RenderedComments(post: Post): (r: seq<Comment>)
    ensures |r| == Size(TopLevel(post)) >= CommentCountHeader(post)
    ensures forall c :: c in r <==> Contains(TopLevel(post), c)
  {
    RenderSize(TopLevel(post));
    HeaderCountsTopLevelOnly(TopLevel(post));
    forall c ensures c in Render(TopLevel(post)) <==> Contains(TopLevel(post), c) {
      RenderMembership(TopLevel(post), c);
    }
    Render(TopLevel(post))
  }

  datatype Call = FetchDetail | PostReply(content: string, parentId: Option<int>)

  class BoardDetailView {
    var post: Option<Post>
    var newComment: string

    constructor ()
      ensures post == None && newComment == ""
    {
      post, newComment := None, "";
    }

    /** The detail effect, run on mount and when the route id changes. */
    method DetailEffect() returns (calls: seq<Call>)
      ensures calls == [FetchDetail]
    {
      calls := [FetchDetail];
    }

    /** `fetchDetail`: the post is replaced by the answer; an error leaves
        the page (the state is kept). */
    method DetailLoaded(response: Response<Post>) returns (leave: bool)
      modifies this`post
      ensures leave == response.Err?
      ensures post == if response.Ok? then Some(response.data) else old(post)
    {
      leave := response.Err?;
      if response.Ok? {
        post := Some(response.data);
      }
    }

    method TypeComment(text: string)
      modifies this`newComment
      ensures newComment == text
    {
      newComment := text;
    }

    /** `handleCommentSubmit`, for the top-level input and for replies: only
        the login is checked, not the text. Once the server accepts, the
        input is cleared and the post refetched; on failure nothing changes. */
    method HandleCommentSubmit(user: Option<User>, content: string, parentId: Option<int>,
                               response: Response<()>) returns (calls: seq<Call>)
      modifies this`newComment
      ensures user.None? ==> calls == [] && newComment == old(newComment)
      ensures user.Some? ==> calls == [PostReply(content, parentId)] + (if response.Ok? then [FetchDetail] else [])
      ensures newComment == if user.Some? && response.Ok? then "" else old(newComment)
    {
      if user.None? {
        return [];
      }
      calls := [PostReply(content, parentId)];
      if response.Ok? {
        newComment := "";
        calls := calls + [FetchDetail];
      }
    }
  }
}
