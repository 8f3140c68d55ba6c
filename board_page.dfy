/** The board list page: the row numbers and date column of the table and the
    login gate in front of the write page. */
module BoardPage {
  import opened Common

  datatype Post = Post(id: int, title: string, writerName: string, createdAt: Option<string>,
                       viewCount: int)

  /** The "NO" column of row `index`, `posts.length - index`. */
  function RowLabel(posts: seq<Post>, index: nat): (no: int)
    requires index < |posts|
    ensures 1 <= no <= |posts|
  {
    |posts| - index
  }

  /** The labels run from the number of posts down to 1, one label per row. */
  lemma RowLabelsRunDown(posts: seq<Post>, i: nat, j: nat)
    requires i < j < |posts|
    ensures RowLabel(posts, i) > RowLabel(posts, j)
    ensures RowLabel(posts, 0) == |posts| && RowLabel(posts, |posts| - 1) == 1
  {
  }

  /** `s.split(" ")[0]`: the part before the first space (all of `s` when it has none). */
  function BeforeFirstSpace(s: string): (r: string)
    ensures |r| <= |s| && r == s[..|r|]
    ensures ' ' !in r
    ensures |r| < |s| ==> s[|r|] == ' '
  {
    if s == [] || s[0] == ' ' then [] else [s[0]] + BeforeFirstSpace(s[1..])
  }

  /** The date column, `createdAt ? createdAt.split(" ")[0] : "-"`. */
  function DateLabel(createdAt: Option<string>): (r: string)
    ensures createdAt.None? || createdAt == Some("") ==> r == "-"
    ensures createdAt.Some? && createdAt.value != "" ==> r == BeforeFirstSpace(createdAt.value)
  {
    match createdAt
    case Some(s) => if s != "" then BeforeFirstSpace(s) else "-"
    case None => "-"
  }

  /** A timestamp without a space is shown whole. */
  lemma NoSpaceShownWhole(s: string)
    requires s != "" && ' ' !in s
    ensures DateLabel(Some(s)) == s
  {
  }

  /** A "date time" timestamp is shown as its date: everything up to the first space. */
  lemma {:induction false} DateLabelKeepsDate(date: string, time: string)
    requires ' ' !in date
    ensures BeforeFirstSpace(date + " " + time) == date
  {
    if date != [] {
      assert (date + " " + time)[1..] == date[1..] + " " + time;
      DateLabelKeepsDate(date[1..], time);
    }
  }

  datatype Route = Login | Write

  /** `handleWriteClick`: a visitor is sent to the login page, never the write page. */
  function WriteClickTarget(user: Option<User>): (r: Route)
    ensures r == Login <==> user.None?
    ensures r == Write <==> user.Some?
  {
    if user.None? then Login else Write
  }
}
