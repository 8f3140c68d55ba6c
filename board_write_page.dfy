/** The board write page: required title and content, the file picker that
    replaces the selection, the multipart post and the error message. */
module BoardWritePage {
  import opened Common
  import opened Attachments
  import opened BoardForm

  /** What a failed post carries: no response at all, or a response body that
      is empty, plain text, or a JSON object with an optional `message`. */
  datatype Body = NoBody | TextBody(text: string) | JsonBody(message: Option<string>)
  datatype Failure = NoResponse | HttpError(body: Body)

  const DefaultError := "서버 오류 발생"
  /** What a template literal makes of a plain object. */
  const ObjectText := "[object Object]"

  /** `err.response?.data?.message || err.response?.data || "서버 오류 발생"`:
      a non-empty message, else a non-empty body, else the default text. */
  function ErrorMessage(f: Failure): (r: string)
    ensures r != ""
    ensures f.HttpError? && f.body.JsonBody? && f.body.message.Some? && f.body.message.value != "" ==>
              r == f.body.message.value
    ensures f.HttpError? && f.body.JsonBody? && (f.body.message.None? || f.body.message == Some("")) ==>
              r == ObjectText
    ensures f.HttpError? && f.body.TextBody? && f.body.text != "" ==> r == f.body.text
    ensures f.NoResponse? || f == HttpError(NoBody) || f == HttpError(TextBody("")) ==> r == DefaultError
  {
    match f
    case NoResponse => DefaultError
    case HttpError(NoBody) => DefaultError
    case HttpError(TextBody(t)) => if t != "" then t else DefaultError
    case HttpError(JsonBody(m)) => OrElse(m, ObjectText)
  }

  /** The guard of `handleSubmit`: both title and content non-blank. */
  predicate CanSubmit(title: string, content: string)
  {
    !IsBlank(title) && !IsBlank(content)
  }

  /** A post goes out exactly when title and content each hold a character
      outside the whitespace that `trim` removes. */
  lemma CanSubmitIffVisibleText(title: string, content: string)
    ensures CanSubmit(title, content) <==> !AllWhitespace(title) && !AllWhitespace(content)
  {
    BlankIffAllWhitespace(title);
    BlankIffAllWhitespace(content);
  }

  datatype Outcome = Created | Failed(failure: Failure)

  datatype Call = CreatePost(parts: seq<Part<BoardData>>)

  class BoardWriteView {
    var title: string
    var content: string
    var category: string
    var files: seq<File>
    var previewUrls: seq<Url>

    predicate Valid()
      reads this
    {
      |files| == |previewUrls|
    }

    constructor ()
      ensures Valid() && title == "" && content == "" && category == DefaultCategory
      ensures files == [] && previewUrls == []
    {
      title, content, category := "", "", DefaultCategory;
      files, previewUrls := [], [];
    }

    /** `handleFileChange`: a new pick replaces the earlier one, and the
        previews follow the files one for one, in the same order. */
    method HandleFileChange(selected: seq<File>, objectUrl: File -> Url)
      modifies this`files, this`previewUrls
      ensures Valid()
      ensures files == selected && previewUrls == PreviewUrls(selected, objectUrl)
    {
      files := selected;
      previewUrls := PreviewUrls(selected, objectUrl);
    }

    /** `handleSubmit`: blank title or content gives the fill-in alert and no
        request; otherwise the fields and files are posted, and a failure is
        reported with the message of the fallback chain. */
    method HandleSubmit(outcome: Outcome) returns (calls: seq<Call>, alert: string)
      ensures !CanSubmit(title, content) ==> calls == [] && alert == "제목과 내용을 입력해주세요."
      ensures CanSubmit(title, content) ==>
                calls == [CreatePost(Multipart(BoardData(title, content, category), files))]
      ensures CanSubmit(title, content) && outcome.Created? ==> alert == "글이 등록되었습니다!"
      ensures CanSubmit(title, content) && outcome.Failed? ==>
                alert == "글 등록 실패: " + ErrorMessage(outcome.failure)
    {
      if !CanSubmit(title, content) {
        return [], "제목과 내용을 입력해주세요.";
      }
      var parts := BuildParts(BoardData(title, content, category), files);
      calls := [CreatePost(parts)];
      match outcome
      case Created => alert := "글이 등록되었습니다!";
      case Failed(f) => alert := "글 등록 실패: " + ErrorMessage(f);
    }
  }
}
