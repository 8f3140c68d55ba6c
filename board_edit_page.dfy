/** The board edit page: the ownership check when the post is loaded, the
    stored images that can be deleted one by one, the newly picked files with
    their previews, and the multipart update. */
module BoardEditPage {
  import opened Common
  import opened Lists
  import opened Attachments
  import opened BoardForm

  /** The fields of the loaded post the form uses. */
  datatype Post = Post(title: string, content: string, category: string, writerEmail: string,
                       images: seq<Image>)

  datatype Call =
    | FetchPost(postId: int)
    | DeleteImage(imageId: int)
    | UpdatePost(postId: int, parts: seq<Part<BoardData>>)

  /** The edit form is filled only for the post's writer, identified by email. */
  predicate MayEdit(user: User, post: Post)
  {
    post.writerEmail == user.email
  }

  class BoardEditView {
    const postId: int
    var title: string
    var content: string
    var category: string
    var existingImages: seq<Image>
    var newFiles: seq<File>
    var newPreviewUrls: seq<Url>

    predicate Valid()
      reads this
    {
      |newFiles| == |newPreviewUrls|
    }

    constructor (postId: int)
      ensures Valid() && this.postId == postId
      ensures title == "" && content == "" && category == DefaultCategory
      ensures existingImages == [] && newFiles == [] && newPreviewUrls == []
    {
      this.postId := postId;
      title, content, category := "", "", DefaultCategory;
      existingImages, newFiles, newPreviewUrls := [], [], [];
    }

    /** The load effect: the post is fetched only when a user exists. A load
        error, or a post written by someone else, sends the user back to the
        board list with no field filled; the writer gets the post's fields. */
    method LoadPost(user: Option<User>, response: Response<Post>) returns (calls: seq<Call>, leave: bool)
      modifies this`title, this`content, this`category, this`existingImages
      ensures user.None? ==> calls == [] && !leave && unchanged(this)
      ensures user.Some? ==> calls == [FetchPost(postId)]
      ensures user.Some? ==> leave == (response.Err? || !MayEdit(user.value, response.data))
      ensures user.Some? && response.Ok? && MayEdit(user.value, response.data) ==>
                title == response.data.title && content == response.data.content &&
                category == response.data.category && existingImages == response.data.images
      ensures leave ==> unchanged(this)
    {
      if user.None? {
        return [], false;
      }
      calls := [FetchPost(postId)];
      if response.Err? || !MayEdit(user.value, response.data) {
        return calls, true;
      }
      var p := response.data;
      title, content, category, existingImages := p.title, p.content, p.category, p.images;
      leave := false;
    }

    /** `handleDeleteExistingImage`: the image leaves the list only after the
        server deletes it. */
    method HandleDeleteExistingImage(imageId: int, confirmed: bool, response: Response<()>)
      returns (calls: seq<Call>)
      modifies this`existingImages
      ensures calls == if confirmed then [DeleteImage(imageId)] else []
      ensures existingImages ==
              if confirmed && response.Ok? then WithoutImage(old(existingImages), imageId) else old(existingImages)
    {
      if !confirmed {
        return [];
      }
      calls := [DeleteImage(imageId)];
      if response.Ok? {
        existingImages := WithoutImage(existingImages, imageId);
      }
    }

    /** `handleFileChange`: appended after the earlier picks. */
    method HandleFileChange(selected: seq<File>, objectUrl: File -> Url)
      requires Valid()
      modifies this`newFiles, this`newPreviewUrls
      ensures Valid()
      ensures newFiles == old(newFiles) + selected
      ensures newPreviewUrls == old(newPreviewUrls) + PreviewUrls(selected, objectUrl)
    {
      newFiles := newFiles + selected;
      newPreviewUrls := newPreviewUrls + PreviewUrls(selected, objectUrl);
    }

    /** `handleRemoveNewFile(index)`. */
    method HandleRemoveNewFile(index: int)
      requires Valid()
      modifies this`newFiles, this`newPreviewUrls
      ensures Valid()
      ensures newFiles == RemoveAt(old(newFiles), index)
      ensures newPreviewUrls == RemoveAt(old(newPreviewUrls), index)
    {
      newFiles := RemoveAt(newFiles, index);
      newPreviewUrls := RemoveAt(newPreviewUrls, index);
    }

    /** `handleUpdate`: no field is checked; the body carries the form fields
        and the new files only, the stored images are not sent again. */
    method HandleUpdate() returns (calls: seq<Call>)
      ensures calls == [UpdatePost(postId, Multipart(BoardData(title, content, category), newFiles))]
    {
      var parts := BuildParts(BoardData(title, content, category), newFiles);
      calls := [UpdatePost(postId, parts)];
    }
  }
}
