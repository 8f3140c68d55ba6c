/** The feed page: the list of feed records and how the heart, follow and
    delete answers rewrite it, the write/edit modal with its three attachment
    lists, and the comment submissions. */
module FeedPage {
  import opened Common
  import opened Lists
  import opened Attachments
  import Comments

  /** A feed record as the server sends it; a retweet is a wrapper whose
      `originalFeed` holds the retweeted post. Missing `images` or `comments`
      lists are empty. */
  datatype Feed = Feed(id: int, writerEmail: string, writerName: string, content: string,
                       createdAt: string, isHearted: bool, heartCount: int, isFollowed: bool,
                       images: seq<Image>, comments: seq<Comments.Comment>,
                       originalFeed: Option<Feed>)

  /** The post a card shows (`displayFeed`): the original for a retweet, else the feed. */
  function Displayed(f: Feed): Feed
  {
    match f.originalFeed
    case Some(orig) => orig
    case None => f
  }

  /** `res.data ? f.heartCount + 1 : f.heartCount - 1`. */
  function HeartDelta(hearted: bool): int
  {
    if hearted then 1 else -1
  }

  /** The heart updater: every feed whose own id is `feedId` takes the server's
      flag and moves its count by one in the direction of that flag, whatever
      its previous flag was; no floor is applied. Nothing else changes. */
  function Hearted(feeds: seq<Feed>, feedId: int, hearted: bool): (r: seq<Feed>)
    ensures |r| == |feeds|
    ensures forall i :: 0 <= i < |feeds| && feeds[i].id == feedId ==>
              r[i].isHearted == hearted && r[i].heartCount == feeds[i].heartCount + HeartDelta(hearted)
    ensures forall i :: 0 <= i < |feeds| ==>
              r[i].(isHearted := feeds[i].isHearted, heartCount := feeds[i].heartCount) == feeds[i]
    ensures forall i :: 0 <= i < |feeds| && feeds[i].id != feedId ==> r[i] == feeds[i]
  {
    if feeds == [] then []
    else
      var f := feeds[0];
      [if f.id == feedId then f.(isHearted := hearted, heartCount := f.heartCount + HeartDelta(hearted)) else f]
      + Hearted(feeds[1..], feedId, hearted)
  }

  /** The follow updater: every feed written by `email` takes the server's flag. */
  function Followed(feeds: seq<Feed>, email: string, following: bool): (r: seq<Feed>)
    ensures |r| == |feeds|
    ensures forall i :: 0 <= i < |feeds| && feeds[i].writerEmail == email ==> r[i].isFollowed == following
    ensures forall i :: 0 <= i < |feeds| ==> r[i].(isFollowed := feeds[i].isFollowed) == feeds[i]
    ensures forall i :: 0 <= i < |feeds| && feeds[i].writerEmail != email ==> r[i] == feeds[i]
  {
    if feeds == [] then []
    else
      var f := feeds[0];
      [if f.writerEmail == email then f.(isFollowed := following) else f]
      + Followed(feeds[1..], email, following)
  }

  /** The delete updater `prev.filter(f => f.id !== feedId)`. */
  function WithoutFeed(feeds: seq<Feed>, feedId: int): (r: seq<Feed>)
    ensures forall i :: 0 <= i < |r| ==> r[i] in feeds && r[i].id != feedId
    ensures forall i :: 0 <= i < |feeds| && feeds[i].id != feedId ==> feeds[i] in r
  {
    Filter(feeds, (f: Feed) => f.id != feedId)
  }

  /** Delete removes every copy of the feeds with that id and keeps every other
      feed, with the order of what remains unchanged. */
  lemma WithoutFeedExact(front: seq<Feed>, back: seq<Feed>, feedId: int, f: Feed)
    ensures WithoutFeed(front + back, feedId) == WithoutFeed(front, feedId) + WithoutFeed(back, feedId)
    ensures multiset(WithoutFeed(front, feedId))[f] == if f.id == feedId then 0 else multiset(front)[f]
  {
    FilterConcat(front, back, (g: Feed) => g.id != feedId);
    FilterMultiplicity(front, (g: Feed) => g.id != feedId, f);
  }

  /** Whatever id and flag the heart and follow answers carry, a retweet card
      keeps showing what it showed before: its nested original is never updated. */
  lemma RetweetCardsNeverUpdated(feeds: seq<Feed>, id: int, email: string, b: bool, k: nat)
    requires k < |feeds| && feeds[k].originalFeed.Some?
    ensures Displayed(Hearted(feeds, id, b)[k]) == Displayed(feeds[k])
    ensures Displayed(Followed(feeds, email, b)[k]) == Displayed(feeds[k])
  {
  }

  /** The heart button on a retweet card sends the original's id; when no
      top-level record carries that id, the answer changes nothing at all. */
  lemma HeartFromRetweetCardIsLost(feeds: seq<Feed>, k: nat, b: bool)
    requires k < |feeds| && feeds[k].originalFeed.Some?
    requires forall i :: 0 <= i < |feeds| ==> feeds[i].id != Displayed(feeds[k]).id
    ensures Hearted(feeds, Displayed(feeds[k]).id, b) == feeds
  {
  }

  /** The server's answers to a heart followed by an unheart bring every count
      back and leave the matching feeds unhearted. */
  lemma HeartThenUnheart(feeds: seq<Feed>, feedId: int)
    ensures var r := Hearted(Hearted(feeds, feedId, true), feedId, false);
            |r| == |feeds| &&
            forall i :: 0 <= i < |feeds| ==>
              r[i].heartCount == feeds[i].heartCount &&
              (feeds[i].id == feedId ==> !r[i].isHearted) &&
              (feeds[i].id != feedId ==> r[i] == feeds[i])
  {
  }

  /** An illustration of `Hearted`: a feed already hearted (count 5) whose
      heart answer is `true` again is shown with 6, so the count follows the
      answer, not a change of the flag. An unhearted feed at 5 answered
      `false` drops to 4. */
  lemma HeartCountFollowsAnswer(f: Feed)
    requires f.heartCount == 5
    ensures Hearted([f.(isHearted := true)], f.id, true)[0].heartCount == 6
    ensures Hearted([f.(isHearted := false)], f.id, false)[0].heartCount == 4
  {
  }

  datatype Tab = Global | Following

  /** The JSON "data" blob of a feed submission, `{ content }`. */
  datatype FeedData = FeedData(content: string)

  /** The remote calls the page issues. */
  datatype Call =
    | FetchFeeds(tab: Tab)
    | CreateFeed(parts: seq<Part<FeedData>>)
    | UpdateFeed(editId: Option<int>, parts: seq<Part<FeedData>>)
    | DeleteFeed(feedId: int)
    | DeleteImage(imageId: int)
    | Heart(feedId: int)
    | Follow(email: string)
    | Retweet(feedId: int)
    | PostComment(feedId: int, content: string, parentId: Option<int>)

  /** The card's buttons: heart and follow act on the displayed post (the
      original of a retweet), the owner menu on the record itself. */
  function HeartTarget(f: Feed): (id: int)
    ensures f.originalFeed.Some? ==> id == f.originalFeed.value.id
    ensures f.originalFeed.None? ==> id == f.id
  {
    Displayed(f).id
  }

  predicate ShowsFollowButton(user: Option<User>, f: Feed)
  {
    user.Some? && user.value.email != Displayed(f).writerEmail
  }

  /** The owner menu area, which always holds the delete button. */
  predicate ShowsOwnerMenu(user: Option<User>, f: Feed)
  {
    user.Some? && user.value.email == f.writerEmail
  }

  /** The edit button inside the owner menu, left out on retweets. */
  predicate ShowsEditButton(user: Option<User>, f: Feed)
  {
    ShowsOwnerMenu(user, f) && f.originalFeed.None?
  }

  /** The follow button is offered exactly when the displayed post is someone
      else's, so never on one's own post, also when another user retweeted it;
      the owner menu is shown on one's own records, but on a retweet it holds
      only the delete button. Logged out, none of them is shown. */
  lemma CardButtons(user: User, f: Feed)
    ensures ShowsFollowButton(Some(user), f) <==> Displayed(f).writerEmail != user.email
    ensures f.writerEmail == user.email ==> ShowsOwnerMenu(Some(user), f)
    ensures f.originalFeed.Some? ==> !ShowsEditButton(Some(user), f)
    ensures f.originalFeed.None? && f.writerEmail == user.email ==> ShowsEditButton(Some(user), f)
    ensures !ShowsOwnerMenu(None, f) && !ShowsFollowButton(None, f) && !ShowsEditButton(None, f)
  {
  }

  /** The two guards of `handleSubmit`: a user is logged in, and there is
      non-blank text or at least one new file. */
  predicate SubmitAllowed(user: Option<User>, content: string, newFiles: seq<File>)
  {
    user.Some? && !(IsBlank(content) && newFiles == [])
  }

  /** The request `handleSubmit` sends: a PUT of the edited feed in edit mode,
      a POST otherwise; only the new files are attached. */
  function SubmitCall(editMode: bool, editId: Option<int>, content: string, newFiles: seq<File>): (c: Call)
    ensures (c.UpdateFeed? || c.CreateFeed?) && c.parts == Multipart(FeedData(content), newFiles)
    ensures editMode <==> c.UpdateFeed?
    ensures c.UpdateFeed? ==> c.editId == editId
    ensures !editMode ==> c.CreateFeed?
  {
    var parts := Multipart(FeedData(content), newFiles);
    if editMode then UpdateFeed(editId, parts) else CreateFeed(parts)
  }

  /** A submission goes out exactly when a user is logged in and there is a
      character outside the whitespace `trim` removes, or at least one new file. */
  lemma SubmitAllowedIff(user: Option<User>, content: string, newFiles: seq<File>)
    ensures SubmitAllowed(user, content, newFiles) <==>
            user.Some? && (!AllWhitespace(content) || newFiles != [])
  {
    BlankIffAllWhitespace(content);
  }

  class FeedView {
    var feeds: seq<Feed>
    var tab: Tab
    var isModalOpen: bool
    var editMode: bool
    var editId: Option<int>
    var content: string
    var existingImages: seq<Image>
    var newFiles: seq<File>
    var newPreviewUrls: seq<Url>
    var activeCommentId: Option<int>
    var commentText: string

    /** The new files and their previews are parallel lists. */
    predicate Valid()
      reads this
    {
      |newFiles| == |newPreviewUrls|
    }

    constructor ()
      ensures Valid()
      ensures feeds == [] && tab == Global && !isModalOpen && !editMode && editId == None
      ensures content == "" && existingImages == [] && newFiles == [] && newPreviewUrls == []
      ensures activeCommentId == None && commentText == ""
    {
      feeds, tab := [], Global;
      isModalOpen, editMode, editId := false, false, None;
      content, existingImages, newFiles, newPreviewUrls := "", [], [], [];
      activeCommentId, commentText := None, "";
    }

    /** The feeds effect, run on mount and whenever the session user
        changes: the current tab is requested. */
    method FeedsEffect() returns (calls: seq<Call>)
      ensures calls == [FetchFeeds(tab)]
    {
      calls := [FetchFeeds(tab)];
    }

    /** A tab button: another tab re-runs the feeds effect for it; the tab
        already shown leaves `tab` as it is, so the effect does not run. */
    method SelectTab(t: Tab) returns (calls: seq<Call>)
      modifies this`tab
      ensures tab == t
      ensures calls == if t == old(tab) then [] else [FetchFeeds(t)]
    {
      calls := if t == tab then [] else [FetchFeeds(t)];
      tab := t;
    }

    /** `fetchFeeds`: the list is replaced wholesale by the answer, kept on failure. */
    method FeedsLoaded(response: Response<seq<Feed>>)
      modifies this`feeds
      ensures feeds == if response.Ok? then response.data else old(feeds)
    {
      if response.Ok? {
        feeds := response.data;
      }
    }

    /** `handleHeart`: updated only after the answer arrives; unchanged on error. */
    method HandleHeart(feedId: int, response: Response<bool>) returns (calls: seq<Call>)
      modifies this`feeds
      ensures calls == [Heart(feedId)]
      ensures feeds == if response.Ok? then Hearted(old(feeds), feedId, response.data) else old(feeds)
    {
      calls := [Heart(feedId)];
      if response.Ok? {
        feeds := Hearted(feeds, feedId, response.data);
      }
    }

    /** `handleFollow`. */
    method HandleFollow(email: string, response: Response<bool>) returns (calls: seq<Call>)
      modifies this`feeds
      ensures calls == [Follow(email)]
      ensures feeds == if response.Ok? then Followed(old(feeds), email, response.data) else old(feeds)
    {
      calls := [Follow(email)];
      if response.Ok? {
        feeds := Followed(feeds, email, response.data);
      }
    }

    /** `handleDelete`: nothing without confirmation; removed after the server agrees. */
    method HandleDelete(feedId: int, confirmed: bool, response: Response<()>) returns (calls: seq<Call>)
      modifies this`feeds
      ensures calls == if confirmed then [DeleteFeed(feedId)] else []
      ensures feeds == if confirmed && response.Ok? then WithoutFeed(old(feeds), feedId) else old(feeds)
    {
      if !confirmed {
        return [];
      }
      calls := [DeleteFeed(feedId)];
      if response.Ok? {
        feeds := WithoutFeed(feeds, feedId);
      }
    }

    /** `handleRetweet`: after a confirmed, accepted retweet the list is refetched. */
    method HandleRetweet(feedId: int, confirmed: bool, response: Response<()>) returns (calls: seq<Call>)
      ensures calls == if !confirmed then [] else [Retweet(feedId)] + (if response.Ok? then [FetchFeeds(tab)] else [])
    {
      if !confirmed {
        return [];
      }
      calls := [Retweet(feedId)];
      if response.Ok? {
        calls := calls + [FetchFeeds(tab)];
      }
    }

    /** `handleCommentSubmit`: posts the text as given (neither a login nor a
        blank check on this path); on success clears the comment input and refetches. */
    method HandleCommentSubmit(feedId: int, text: string, parentId: Option<int>, response: Response<()>)
      returns (calls: seq<Call>)
      modifies this`commentText
      ensures calls == [PostComment(feedId, text, parentId)] + (if response.Ok? then [FetchFeeds(tab)] else [])
      ensures commentText == if response.Ok? then "" else old(commentText)
    {
      calls := [PostComment(feedId, text, parentId)];
      if response.Ok? {
        commentText := "";
        calls := calls + [FetchFeeds(tab)];
      }
    }

    /** `handleFileChange`: the picked files and one preview URL per file are
        appended after the ones already held. */
    method HandleFileChange(selected: seq<File>, objectUrl: File -> Url)
      requires Valid()
      modifies this`newFiles, this`newPreviewUrls
      ensures Valid()
      ensures newFiles == old(newFiles) + selected
      ensures newPreviewUrls == old(newPreviewUrls) + PreviewUrls(selected, objectUrl)
    {
      newFiles := newFiles + selected;
      newPreviewUrls := newPreviewUrls + PreviewUrls(selected, objectUrl);
    }

    /** `removeNewImage(index)`: the same position leaves both lists. */
    method RemoveNewImage(index: int)
      requires Valid()
      modifies this`newFiles, this`newPreviewUrls
      ensures Valid()
      ensures newFiles == RemoveAt(old(newFiles), index)
      ensures newPreviewUrls == RemoveAt(old(newPreviewUrls), index)
    {
      newFiles := RemoveAt(newFiles, index);
      newPreviewUrls := RemoveAt(newPreviewUrls, index);
    }

    /** `handleDeleteExistingImage`: removed by id once the server agrees. */
    method HandleDeleteExistingImage(imageId: int, confirmed: bool, response: Response<()>)
      returns (calls: seq<Call>)
      modifies this`existingImages
      ensures calls == if confirmed then [DeleteImage(imageId)] else []
      ensures existingImages ==
              if confirmed && response.Ok? then WithoutImage(old(existingImages), imageId) else old(existingImages)
    {
      if !confirmed {
        return [];
      }
      calls := [DeleteImage(imageId)];
      if response.Ok? {
        existingImages := WithoutImage(existingImages, imageId);
      }
    }

    /** The floating write button (shown to logged-in users). */
    method OpenWriter()
      modifies this`isModalOpen, this`editMode
      ensures isModalOpen && !editMode
    {
      isModalOpen, editMode := true, false;
    }

    /** `handleEditClick`: the modal opens on the feed's text and images; the
        new-file lists are left as they were. */
    method HandleEditClick(f: Feed)
      modifies this`editMode, this`editId, this`content, this`existingImages, this`isModalOpen
      ensures editMode && editId == Some(f.id) && content == f.content
      ensures existingImages == f.images && isModalOpen
    {
      editMode, editId, content := true, Some(f.id), f.content;
      existingImages, isModalOpen := f.images, true;
    }

    /** `closeModal`: closes, leaves edit mode and empties the text and all
        image lists; `editId` keeps its value. */
    method CloseModal()
      modifies this`isModalOpen, this`editMode, this`content, this`existingImages,
               this`newFiles, this`newPreviewUrls
      ensures Valid()
      ensures !isModalOpen && !editMode && content == ""
      ensures existingImages == [] && newFiles == [] && newPreviewUrls == []
    {
      isModalOpen, editMode, content := false, false, "";
      existingImages, newFiles, newPreviewUrls := [], [], [];
    }

    /** `handleSubmit`: nothing without a user, nothing for blank text with no
        new file; otherwise the text and the new files go out as one multipart
        body and, once accepted, the modal closes and the list is refetched.
        On failure nothing changes. */
    method HandleSubmit(user: Option<User>, response: Response<()>) returns (calls: seq<Call>)
      requires Valid()
      modifies this`isModalOpen, this`editMode, this`content, this`existingImages,
               this`newFiles, this`newPreviewUrls
      ensures Valid()
      ensures !SubmitAllowed(user, old(content), old(newFiles)) ==> calls == [] && unchanged(this)
      ensures SubmitAllowed(user, old(content), old(newFiles)) ==>
                calls == [SubmitCall(old(editMode), editId, old(content), old(newFiles))] +
                         (if response.Ok? then [FetchFeeds(tab)] else [])
      ensures SubmitAllowed(user, old(content), old(newFiles)) && response.Ok? ==>
                !isModalOpen && !editMode && content == "" &&
                existingImages == [] && newFiles == [] && newPreviewUrls == []
      ensures response.Err? ==> unchanged(this)
    {
      if !SubmitAllowed(user, content, newFiles) {
        return [];
      }
      var parts := BuildParts(FeedData(content), newFiles);
      calls := [if editMode then UpdateFeed(editId, parts) else CreateFeed(parts)];
      if response.Ok? {
        CloseModal();
        calls := calls + [FetchFeeds(tab)];
      }
    }
  }
}
