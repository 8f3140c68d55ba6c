/** The comment tree shared by board posts and feed posts: the nested
    `children` lists the server returns, the order in which the recursive
    comment component renders them, the display-name ownership rule, and the
    per-comment reply/edit box. */
module Comments {
  import opened Common

  /** A comment as the server nests it; a missing `children` list is empty. */
  datatype Comment = Comment(id: int, writerName: string, content: string, createdAt: string,
                             children: seq<Comment>)

  /** The comments in the order their items appear on the page: each comment,
      then its children's subtrees in array order, then its later siblings. */
  function Render(forest: seq<Comment>): (r: seq<Comment>)
    decreases forest
  {
    if forest == [] then []
    else [forest[0]] + Render(forest[0].children) + Render(forest[1..])
  }

  /** Number of comments in a forest, counted independently of rendering. */
  function Size(forest: seq<Comment>): (n: nat)
    ensures forest != [] ==> n >= |forest|
    decreases forest
  {
    if forest == [] then 0 else 1 + Size(forest[0].children) + Size(forest[1..])
  }

  /** `c` is one of the comments of `forest`, at any depth. */
  predicate Contains(forest: seq<Comment>, c: Comment)
    decreases forest
  {
    exists i :: 0 <= i < |forest| && (forest[i] == c || Contains(forest[i].children, c))
  }

  /** Rendering a list is rendering its parts one after the other, so top-level
      comments keep their array order. */
  lemma {:induction false} RenderConcat(a: seq<Comment>, b: seq<Comment>)
    ensures Render(a + b) == Render(a) + Render(b)
    decreases a
  {
    if a == [] {
      assert a + b == b;
    } else {
      assert (a + b)[0] == a[0];
      assert (a + b)[1..] == a[1..] + b;
      RenderConcat(a[1..], b);
    }
  }

  /** The comment at position `i` is rendered right after the subtrees of the
      comments before it, and its own subtree follows it immediately. */
  lemma {:induction false} RenderAt(forest: seq<Comment>, i: nat)
    requires i < |forest|
    ensures Render(forest) ==
            Render(forest[..i]) + [forest[i]] + Render(forest[i].children) + Render(forest[i + 1..])
  {
    var tail := forest[i..];
    assert tail[0] == forest[i] && tail[1..] == forest[i + 1..];
    assert Render(tail) == [forest[i]] + Render(forest[i].children) + Render(forest[i + 1..]);
    RenderConcat(forest[..i], tail);
    assert forest[..i] + tail == forest;
  }

  /** Each comment of the tree is rendered once: the number of rendered items
      is the number of comments. */
  lemma {:induction false} RenderSize(forest: seq<Comment>)
    ensures |Render(forest)| == Size(forest)
    decreases forest
  {
    if forest != [] {
      RenderSize(forest[0].children);
      RenderSize(forest[1..]);
    }
  }

  /** A comment is rendered exactly when it occurs somewhere in the tree. */
  lemma {:induction false} RenderMembership(forest: seq<Comment>, c: Comment)
    ensures c in Render(forest) <==> Contains(forest, c)
    decreases forest
  {
    if forest != [] {
      RenderMembership(forest[0].children, c);
      RenderMembership(forest[1..], c);
      ContainsUnfold(forest, c);
    }
  }

  lemma ContainsUnfold(forest: seq<Comment>, c: Comment)
    requires forest != []
    ensures Contains(forest, c) <==>
            forest[0] == c || Contains(forest[0].children, c) || Contains(forest[1..], c)
  {
  }

  /** `user && (user.nickname === writerName || user.name === writerName)`:
      ownership of a comment is decided by display name, not by identity. */
  predicate IsMyComment(user: Option<User>, c: Comment)
  {
    user.Some? && (user.value.nickname == Some(c.writerName) || user.value.name == c.writerName)
  }

  /** Logged out, no comment is anyone's; logged in, a comment is mine exactly
      when its writer name is my nickname or my name. Two different accounts
      that share a name therefore both own the same comment. */
  lemma IsMyCommentByDisplayName(me: User, other: User, c: Comment)
    requires me.email != other.email && me.name == other.name && c.writerName == me.name
    ensures !IsMyComment(None, c)
    ensures IsMyComment(Some(me), c) && IsMyComment(Some(other), c)
  {
  }

  /** What a reply box hands to the page: the text and the parent comment id. */
  datatype Reply = Reply(content: string, parentId: int)

  /** The remote calls a comment item issues; board comments use the same
      feed-comment endpoints as feed comments. */
  datatype Call = UpdateComment(id: int, content: string) | DeleteComment(id: int) | Refresh

  /** The local state of one rendered comment item. */
  class CommentItem {
    const comment: Comment
    var isReplying: bool
    var isEditing: bool
    var replyText: string
    var editText: string

    constructor (comment: Comment)
      ensures this.comment == comment
      ensures !isReplying && !isEditing && replyText == "" && editText == comment.content
    {
      this.comment := comment;
      isReplying, isEditing := false, false;
      replyText, editText := "", comment.content;
    }

    /** The "reply" link toggles the reply input. */
    method ToggleReplying()
      modifies this`isReplying
      ensures isReplying == !old(isReplying)
    {
      isReplying := !isReplying;
    }

    method TypeReply(text: string)
      modifies this`replyText
      ensures replyText == text
    {
      replyText := text;
    }

    /** `handleSubmitReply`: a blank reply is dropped with nothing changed;
        otherwise the reply goes to the page under this comment's id and the
        box closes and clears, whatever the page then does with it. */
    method SubmitReply() returns (sent: Option<Reply>)
      modifies this`isReplying, this`replyText
      ensures IsBlank(old(replyText)) ==> sent == None && unchanged(this)
      ensures !IsBlank(old(replyText)) ==>
                sent == Some(Reply(old(replyText), comment.id)) && !isReplying && replyText == ""
    {
      if IsBlank(replyText) {
        return None;
      }
      sent := Some(Reply(replyText, comment.id));
      isReplying := false;
      replyText := "";
    }

    /** The "edit" link opens the editor on the current `editText`. */
    method StartEditing()
      modifies this`isEditing
      ensures isEditing
    {
      isEditing := true;
    }

    method TypeEdit(text: string)
      modifies this`editText
      ensures editText == text
    {
      editText := text;
    }

    /** "Cancel" closes the editor but keeps what was typed, so opening it
        again shows the abandoned edit rather than the comment's content. */
    method CancelEdit()
      modifies this`isEditing
      ensures !isEditing && editText == old(editText)
    {
      isEditing := false;
    }

    /** `handleUpdate`: the edit is sent as typed (no blank check); on success
        the editor closes and the tree is refetched, on failure nothing changes. */
    method SaveEdit(response: Response<()>) returns (calls: seq<Call>)
      modifies this`isEditing
      ensures calls == [UpdateComment(comment.id, editText)] + (if response.Ok? then [Refresh] else [])
      ensures isEditing == (old(isEditing) && response.Err?)
    {
      calls := [UpdateComment(comment.id, editText)];
      if response.Ok? {
        isEditing := false;
        calls := calls + [Refresh];
      }
    }

    /** `handleDelete`: nothing without confirmation; the tree is refetched
        only after the server accepts the deletion. */
    method Delete(confirmed: bool, response: Response<()>) returns (calls: seq<Call>)
      ensures !confirmed ==> calls == []
      ensures confirmed ==> calls == [DeleteComment(comment.id)] + (if response.Ok? then [Refresh] else [])
    {
      if !confirmed {
        return [];
      }
      calls := [DeleteComment(comment.id)];
      if response.Ok? {
        calls := calls + [Refresh];
      }
    }
  }
}
