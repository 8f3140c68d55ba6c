# az-news-frontend: the state-update rules of its pages, in Dafny

az-news-frontend is the React client of a news and discussion site. Users read
news, post to topic boards, publish short feed updates, comment in threads,
follow each other and get notifications. Most of its code is rendering and
`axios` calls. The logic lives in the event handlers. Each handler awaits one
server answer and then rewrites the page's state.

This project models those handlers. Each page with state is a Dafny `class`
whose fields are the page's `useState` values. Each handler is a method on that
class. The server's answer is a parameter of type `Response<T>` (`Ok(data)` or
`Err`). A `window.confirm` is a `bool` parameter. A `useEffect` that loads
data is a method too, which the caller runs whenever the effect's dependencies
change. The network calls a handler or an effect issues are returned as a
`seq<Call>`, so "issues nothing" is `calls == []`.
The board list page keeps no state the model needs, so `BoardPage` has no
class. Its row and date derivations are functions, and its `handleWriteClick`
is the function `BoardPage.WriteClickTarget`, which returns where the button
leads.
The updaters the handlers pass to their state setters are pure functions.
Each has pointwise contracts and lemmas: the array `map`/`filter` rewrites,
the trimmed-empty guards, the `a || b` fallbacks, the comment-tree walk.

Modules follow the source files:

- `Common`: `Option`, `Response`, the session `User`, JavaScript `trim` with
  the ECMAScript whitespace set, and the `||` fallback on strings.
- `Lists`: index removal, `filter` and parallel-list pairing.
- `Attachments`: stored images, picked files with their preview URLs, and the
  multipart body. The body is built by a loop (`BuildParts`) against the
  `Multipart` function.
- `Comments`: the nested comment tree, its pre-order rendering, comment
  ownership by display name, and the per-comment reply/edit/delete box. The
  source has two copies of this box, `FeedCommentItem` (FeedPage.jsx:8-91)
  and `CommentItem` (BoardDetailPage.jsx:9-94). They differ only in layout
  and in the feed copy also passing its feed id to the reply callback. The
  model merges them into `Comments.CommentItem`, and its rows cite the
  BoardDetailPage copy.
- `BoardForm`: the `{ title, content, category }` data blob the board write
  and edit forms both send, and their starting category.
- `FeedPage`, `MyPage`, `Layout`, `BoardEditPage`, `BoardDetailPage`,
  `BoardPage`, `BoardWritePage`, `NewsDetailPage`: one module per page.

Behaviours of the code that the model keeps on purpose:

- The heart toggle is not optimistic. The count moves by ±1 only after the
  server's answer, in the direction of that answer. A feed at 5 answered
  `false` shows 4, whatever its flag was (`FeedPage.HeartCountFollowsAnswer`).
- Reading a notification never changes the loaded list. Its `read` flag stays
  as the server sent it. `HandleNotiClick` does not have `notifications` in
  its frame.
- Editing or deleting another user's comment is not refused by the client.
  It only hides the buttons, by display name (`Comments.IsMyComment`).
- A follow toggle updates only the lists of the page that issued it. Other
  views see the change at their next fetch.

## Model

| member | source | states |
|---|---|---|
| Common.OrElse | src/pages/MyPage.jsx:32 | `a \|\| b` on an optional string: `a` when present and non-empty, otherwise `b` |
| Common.LeadingWhitespace | src/pages/FeedPage.jsx:143 | the count is at most the length, every counted character is whitespace, and the character after them is not |
| Common.TrailingWhitespace | src/pages/FeedPage.jsx:143 | the symmetric statement for the whitespace the string ends with |
| Common.TrimEnd | src/pages/FeedPage.jsx:143 | the result is a prefix of the input, everything dropped is whitespace, and it ends with a non-whitespace character or is empty |
| Common.Trim | src/pages/FeedPage.jsx:143 | `trim` leaves no whitespace at either end and removes none elsewhere: the result is the piece of the input that starts right after its leading whitespace and is followed only by whitespace |
| Common.IsBlank | src/pages/FeedPage.jsx:143 | the `!s.trim()` guard: the trimmed string is empty |
| Common.BlankIffAllWhitespace | src/pages/FeedPage.jsx:143 | `!s.trim()` holds exactly when every character of `s` is ECMAScript whitespace |
| Common.BlankExamples | src/pages/FeedPage.jsx:16 | an illustration on fixed inputs: a space and a newline are blank; a space before a letter is not |
| Lists.RemoveAt | src/pages/FeedPage.jsx:128-131 | `filter((_, i) => i !== index)`: one element fewer, the earlier ones in place, the later ones shifted down by one; an index outside the list changes nothing |
| Lists.Zip | src/pages/FeedPage.jsx:128-131 | pairs two equal-length lists position by position |
| Lists.RemoveAtKeepsPairs | src/pages/FeedPage.jsx:128-131 | removing the same index from two parallel lists keeps them equally long, and the remaining pairs are the old pairs minus the removed one |
| Lists.AppendKeepsPairs | src/pages/FeedPage.jsx:123-125 | appending equal-length lists to two parallel lists appends their pairs after the old pairs |
| Lists.Filter | src/pages/FeedPage.jsx:157 | every kept element is in the input and passes the test; every passing element of the input is kept; no longer than the input |
| Lists.FilterConcat | src/pages/FeedPage.jsx:157 | filtering keeps relative order: it works on the parts of a list separately |
| Lists.FilterMultiplicity | src/pages/FeedPage.jsx:157 | every copy of a passing element is kept and no copy of a failing one |
| Lists.FilterKeepsAll | src/pages/FeedPage.jsx:157 | a filter that rejects nothing returns the list unchanged |
| Attachments.PreviewUrls | src/pages/BoardWritePage.jsx:22 | one preview URL per file, position by position, made from that file |
| Attachments.WithoutImage | src/pages/BoardEditPage.jsx:55 | the images left have a different id and come from the list; every image with a different id is left |
| Attachments.WithoutImageKeepsOthers | src/pages/FeedPage.jsx:137 | removing an image id drops every copy of those images and keeps every copy of the others |
| Attachments.SelectionAppendsPairs | src/pages/FeedPage.jsx:121-126 | a pick appends each new file paired with its own preview after the old file/preview pairs |
| Attachments.FileParts | src/pages/BoardEditPage.jsx:83-85 | one "files" part per file, in order |
| Attachments.FilePartsConcat | src/pages/BoardEditPage.jsx:83-85 | the file parts of two lists of files, one after the other, are the file parts of the joined list |
| Attachments.Multipart | src/pages/BoardWritePage.jsx:33-39 | the body is the data part followed by exactly one file part per file, in order, with no other data part |
| Attachments.BuildParts | src/pages/BoardWritePage.jsx:33-39 | the append-then-`forEach` loop builds exactly the `Multipart` body |
| Comments.Size | src/pages/BoardDetailPage.jsx:79-91 | a non-empty forest holds at least as many comments as its top level |
| Comments.Render | src/pages/BoardDetailPage.jsx:79-91 | the order of the recursive comment items: each comment, then its children's subtrees in array order, then its later siblings |
| Comments.RenderConcat | src/pages/BoardDetailPage.jsx:193-201 | top-level comments are rendered in array order, each list part after the one before |
| Comments.RenderAt | src/pages/BoardDetailPage.jsx:79-91 | the comment at position `i` comes after the subtrees of the comments before it, and its own subtree comes right after it |
| Comments.RenderSize | src/pages/BoardDetailPage.jsx:79-91 | the number of rendered items is the number of comments in the tree |
| Comments.RenderMembership | src/pages/BoardDetailPage.jsx:79-91 | a comment is rendered exactly when it occurs at some depth of the tree |
| Comments.ContainsUnfold | src/pages/BoardDetailPage.jsx:79-91 | a comment is in a forest when it is the first comment, is in its children, or is in the later siblings |
| Comments.IsMyComment | src/pages/BoardDetailPage.jsx:39 | a comment is mine when a user is logged in and the comment's writer name is that user's nickname or name |
| Comments.IsMyCommentByDisplayName | src/pages/BoardDetailPage.jsx:39 | logged out, no comment is anyone's; two different accounts that share a name both own a comment written under that name |
| Comments.CommentItem.constructor | src/pages/BoardDetailPage.jsx:11-14 | no reply or edit box is open, the reply text is empty, and the edit text starts on the comment's content |
| Comments.CommentItem.ToggleReplying | src/pages/BoardDetailPage.jsx:58 | the reply link flips the reply box |
| Comments.CommentItem.TypeReply | src/pages/BoardDetailPage.jsx:73 | the reply input holds what was typed |
| Comments.CommentItem.SubmitReply | src/pages/BoardDetailPage.jsx:16-21 | a blank reply sends nothing and changes nothing; otherwise the text goes out under this comment's id and the box closes and clears |
| Comments.CommentItem.StartEditing | src/pages/BoardDetailPage.jsx:62 | the edit link opens the editor |
| Comments.CommentItem.TypeEdit | src/pages/BoardDetailPage.jsx:49 | the edit input holds what was typed |
| Comments.CommentItem.CancelEdit | src/pages/BoardDetailPage.jsx:51 | cancel closes the editor and keeps the typed text, so reopening shows the abandoned edit |
| Comments.CommentItem.SaveEdit | src/pages/BoardDetailPage.jsx:23-29 | the edit is sent without a blank check; on success the editor closes and the tree is refetched; on failure nothing changes |
| Comments.CommentItem.Delete | src/pages/BoardDetailPage.jsx:31-37 | without confirmation nothing is sent; the tree is refetched only after the deletion is accepted |
| FeedPage.Hearted | src/pages/FeedPage.jsx:156 | same length; a feed with that id takes the answer's flag with its count moved by +1 or -1 according to the answer, whatever its previous flag, with no floor; no other field or feed changes |
| FeedPage.Followed | src/pages/FeedPage.jsx:158 | same length; the feeds by that writer take the answer's follow flag; no other field or feed changes |
| FeedPage.Displayed | src/pages/FeedPage.jsx:172-173 | a card shows the retweeted original for a retweet, otherwise the record itself |
| FeedPage.WithoutFeed | src/pages/FeedPage.jsx:157 | the feeds left come from the list and have a different id; every feed with a different id is left |
| FeedPage.WithoutFeedExact | src/pages/FeedPage.jsx:157 | delete keeps the order of what remains and drops every copy of the feeds with that id and no copy of another |
| FeedPage.RetweetCardsNeverUpdated | src/pages/FeedPage.jsx:172-173 | after any heart or follow answer, a retweet card shows the same post as before, because its nested original is never updated |
| FeedPage.HeartFromRetweetCardIsLost | src/pages/FeedPage.jsx:204 | the heart button of a retweet card sends the original's id; when no top-level record has that id the answer changes nothing |
| FeedPage.HeartThenUnheart | src/pages/FeedPage.jsx:156 | a `true` answer then a `false` answer bring every count back and leave the matching feeds unhearted |
| FeedPage.HeartCountFollowsAnswer | src/pages/FeedPage.jsx:156 | an illustration on fixed inputs: a hearted feed at 5 answered `true` again shows 6; an unhearted feed at 5 answered `false` shows 4 |
| FeedPage.HeartTarget | src/pages/FeedPage.jsx:204 | the heart button targets the original of a retweet, otherwise the feed itself |
| FeedPage.ShowsFollowButton | src/pages/FeedPage.jsx:186 | the follow button shows when a user is logged in and the displayed post's writer is someone else |
| FeedPage.ShowsOwnerMenu | src/pages/FeedPage.jsx:188 | the owner menu, which always holds the delete button, shows when a user is logged in and wrote the record itself |
| FeedPage.ShowsEditButton | src/pages/FeedPage.jsx:188-190 | the edit button shows inside the owner menu only on a record that is not a retweet |
| FeedPage.CardButtons | src/pages/FeedPage.jsx:186-193 | the follow button appears exactly when the displayed post is someone else's, so never on one's own post, even inside another user's retweet; the owner menu appears on one's own records, and on a retweet it holds only the delete button, while one's own non-retweet record also gets the edit button; logged out, none of them appears |
| FeedPage.SubmitCall | src/pages/FeedPage.jsx:144-149 | in edit mode a PUT to `editId`, otherwise a POST, both carrying the text part and one part per new file |
| FeedPage.SubmitAllowed | src/pages/FeedPage.jsx:142-143 | a submission needs a logged-in user and either non-blank text or a new file |
| FeedPage.SubmitAllowedIff | src/pages/FeedPage.jsx:142-143 | a submission goes out exactly when a user is logged in and the text has a non-whitespace character or at least one new file is attached |
| FeedPage.FeedView.constructor | src/pages/FeedPage.jsx:96-107 | the initial state: empty lists and text, global tab, modal closed, no edit id |
| FeedPage.FeedView.FeedsEffect | src/pages/FeedPage.jsx:119 | on mount and on a user change, the feeds of the current tab are requested |
| FeedPage.FeedView.SelectTab | src/pages/FeedPage.jsx:166-167 | the tab becomes the chosen one; a different tab requests its feeds, the tab already shown requests nothing |
| FeedPage.FeedView.FeedsLoaded | src/pages/FeedPage.jsx:110-117 | the list is replaced by the answer, and kept on failure |
| FeedPage.FeedView.HandleHeart | src/pages/FeedPage.jsx:156 | the list becomes `Hearted` of the old list after an answer; on error it is unchanged |
| FeedPage.FeedView.HandleFollow | src/pages/FeedPage.jsx:158 | the list becomes `Followed` of the old list after an answer; on error it is unchanged |
| FeedPage.FeedView.HandleDelete | src/pages/FeedPage.jsx:157 | without confirmation nothing is sent; after an accepted delete the list is `WithoutFeed` of the old one |
| FeedPage.FeedView.HandleRetweet | src/pages/FeedPage.jsx:159 | without confirmation nothing is sent; an accepted retweet triggers a refetch of the current tab |
| FeedPage.FeedView.HandleCommentSubmit | src/pages/FeedPage.jsx:160 | the text is posted with neither a login nor a blank check; on success the input clears and the list is refetched |
| FeedPage.FeedView.HandleFileChange | src/pages/FeedPage.jsx:121-126 | the files and their previews are appended after the old ones, and the two lists stay equally long |
| FeedPage.FeedView.RemoveNewImage | src/pages/FeedPage.jsx:128-131 | the same index leaves both lists, which stay equally long |
| FeedPage.FeedView.HandleDeleteExistingImage | src/pages/FeedPage.jsx:133-139 | the image leaves the list only after a confirmed, accepted delete |
| FeedPage.FeedView.OpenWriter | src/pages/FeedPage.jsx:225 | the write button opens the modal outside edit mode |
| FeedPage.FeedView.HandleEditClick | src/pages/FeedPage.jsx:155 | edit mode on the feed's id, text and images, with the modal open; the new-file lists are left as they were |
| FeedPage.FeedView.CloseModal | src/pages/FeedPage.jsx:154 | the modal closes, edit mode ends, the text and all three image lists are emptied |
| FeedPage.FeedView.HandleSubmit | src/pages/FeedPage.jsx:141-152 | refused without a user or for blank text with no file; otherwise the `SubmitCall` request, and after success the modal is closed and the list refetched; on failure nothing changes |
| MyPage.Unfollowed | src/pages/MyPage.jsx:92 | the entries left come from the list and have a different email; every entry with a different email is left |
| MyPage.WithFollowFlag | src/pages/MyPage.jsx:94 | same length; the entries with that email take the answer's flag; the others are unchanged |
| MyPage.CountEmail | src/pages/MyPage.jsx:92 | the number of entries with an email is at most the list's length |
| MyPage.UnfollowedCount | src/pages/MyPage.jsx:92 | unfollowing drops exactly as many entries as carry the email; a list without it is untouched |
| MyPage.FollowButtonTargets | src/pages/MyPage.jsx:204 | every entry except one's own gets a follow button, and one's own email never does |
| MyPage.DisplayName | src/pages/MyPage.jsx:32 | the nickname when present and non-empty, otherwise the name |
| MyPage.MyPageView.constructor | src/pages/MyPage.jsx:14-24 | empty lists, editor closed, empty nickname and keyword inputs, no modal |
| MyPage.MyPageView.StatNumbers | src/pages/MyPage.jsx:153-166 | the three stat numbers are the lengths of the following, follower and keyword lists |
| MyPage.MyPageView.SessionLoaded | src/pages/MyPage.jsx:28-61 | with no user nothing happens; with a user the nickname editor starts on the display name and the keywords, followers and followings are requested, in that order |
| MyPage.MyPageView.KeywordsLoaded | src/pages/MyPage.jsx:36-44 | the keywords become the answer, an empty body becoming the empty list; kept on failure |
| MyPage.MyPageView.FollowersLoaded | src/pages/MyPage.jsx:49-51 | the followers become the answer, an empty body becoming the empty list; kept on failure |
| MyPage.MyPageView.FollowingsLoaded | src/pages/MyPage.jsx:53-56 | the followings become the answer, an empty body becoming the empty list; kept on failure |
| MyPage.MyPageView.OpenModal | src/pages/MyPage.jsx:154 | the chosen modal (or none) becomes the open one |
| MyPage.MyPageView.HandleToggleFollow | src/pages/MyPage.jsx:86-100 | in the following modal an unfollow answer removes that email and a follow answer changes nothing; in the follower modal the matching entries take the answer and the followings are refetched; on error, or with no list modal open, neither list changes |
| MyPage.MyPageView.TypeKeyword | src/pages/MyPage.jsx:218 | the keyword input holds what was typed |
| MyPage.MyPageView.HandleAddKeyword | src/pages/MyPage.jsx:102-109 | a blank keyword sends nothing; an accepted one replaces the list by the server's list and clears the input; a failure changes nothing |
| MyPage.MyPageView.HandleDeleteKeyword | src/pages/MyPage.jsx:111-117 | without confirmation nothing is sent; after an accepted delete the list is the server's list |
| MyPage.MyPageView.StartEditing | src/pages/MyPage.jsx:148 | the editor opens |
| MyPage.MyPageView.CancelEditing | src/pages/MyPage.jsx:145 | the editor closes and the nickname input is set to `user.nickname` |
| MyPage.CancelDoesNotRestoreInitialNickname | src/pages/MyPage.jsx:145 | on a fresh page, loading the session then opening and cancelling the editor goes from the display name to `user.nickname`; for a user without a nickname that is `undefined`, not the name shown before |
| Layout.Decremented | src/components/Layout.jsx:41 | `Math.max(0, prev - 1)`: never negative, one less from 1 upward, zero at or below 1 |
| Layout.ReadsSaturate | src/components/Layout.jsx:41 | after `k` accepted reads the counter is the old count less `k`, floored at zero |
| Layout.BadgeAfterRead | src/components/Layout.jsx:61 | after a read the badge stays exactly when the count was above 1 |
| Layout.ShowsBadge | src/components/Layout.jsx:61 | the bell badge shows exactly when the unread count is positive |
| Layout.ShowsNewDot | src/components/Layout.jsx:71 | an item's dot shows exactly when it is unread |
| Layout.NotificationHeader.constructor | src/components/Layout.jsx:11-13 | zero unread, panel closed, no notifications |
| Layout.NotificationHeader.SessionChanged | src/components/Layout.jsx:15-23 | without a user the counter is reset to zero and no poll is issued; with a user a poll is issued at once |
| Layout.NotificationHeader.Poll | src/components/Layout.jsx:17-21 | the counter is replaced by the server's value, not added to; a failed poll keeps it |
| Layout.NotificationHeader.ToggleNotification | src/components/Layout.jsx:28-36 | the panel flips either way; the list is fetched only when a closed panel opens, and kept on failure |
| Layout.NotificationHeader.Close | src/components/Layout.jsx:65 | the close button closes the panel and fetches nothing |
| Layout.NotificationHeader.HandleNotiClick | src/components/Layout.jsx:38-45 | after an accepted read the counter drops by one (floored at zero), the panel closes and the link opens; on failure nothing changes; the list is never touched |
| BoardEditPage.MayEdit | src/pages/BoardEditPage.jsx:31 | the form is filled only when the post's writer email is the user's email |
| BoardEditPage.BoardEditView.constructor | src/pages/BoardEditPage.jsx:13-22 | empty fields with category "주식", no images or files |
| BoardEditPage.BoardEditView.LoadPost | src/pages/BoardEditPage.jsx:25-47 | without a user nothing is fetched; a load error or another writer's post leaves the page with no field filled; the writer's post fills title, content, category and stored images |
| BoardEditPage.BoardEditView.HandleDeleteExistingImage | src/pages/BoardEditPage.jsx:50-59 | the image leaves the list only after a confirmed, accepted delete |
| BoardEditPage.BoardEditView.HandleFileChange | src/pages/BoardEditPage.jsx:62-68 | the files and their previews are appended after the old ones, and the two lists stay equally long |
| BoardEditPage.BoardEditView.HandleRemoveNewFile | src/pages/BoardEditPage.jsx:71-74 | the same index leaves both lists, which stay equally long |
| BoardEditPage.BoardEditView.HandleUpdate | src/pages/BoardEditPage.jsx:77-94 | no field is checked; the body is the form fields followed by the new files only |
| BoardDetailPage.IsMyPost | src/pages/BoardDetailPage.jsx:145 | a post is mine when a user is logged in and its writer email is that user's email |
| BoardDetailPage.PostOwnershipIsByEmail | src/pages/BoardDetailPage.jsx:145 | a post is mine exactly when my email is its writer's; logged out it is nobody's; two owners have the same email |
| BoardDetailPage.CommentCountHeader | src/pages/BoardDetailPage.jsx:182 | the number of top-level replies, or 0 when there are none |
| BoardDetailPage.HeaderCountsTopLevelOnly | src/pages/BoardDetailPage.jsx:182 | the header never exceeds the number of comments in the tree, and equals it exactly when no reply has a reply |
| BoardDetailPage.RenderedComments | src/pages/BoardDetailPage.jsx:193-201 | the page renders every comment of the tree once, and never fewer items than the header counts |
| BoardDetailPage.BoardDetailView.constructor | src/pages/BoardDetailPage.jsx:102-104 | no post and an empty comment input |
| BoardDetailPage.BoardDetailView.DetailEffect | src/pages/BoardDetailPage.jsx:118 | on mount the post is requested |
| BoardDetailPage.BoardDetailView.DetailLoaded | src/pages/BoardDetailPage.jsx:106-116 | the post becomes the answer; an error leaves the page |
| BoardDetailPage.BoardDetailView.TypeComment | src/pages/BoardDetailPage.jsx:186 | the comment input holds what was typed |
| BoardDetailPage.BoardDetailView.HandleCommentSubmit | src/pages/BoardDetailPage.jsx:133-140 | without a user nothing is sent; otherwise the text is posted with its parent id and no blank check, and on success the input clears and the post is refetched |
| BoardPage.RowLabel | src/pages/BoardPage.jsx:87 | a row label lies between 1 and the number of posts |
| BoardPage.RowLabelsRunDown | src/pages/BoardPage.jsx:87 | labels strictly decrease down the table, from the number of posts to 1 |
| BoardPage.BeforeFirstSpace | src/pages/BoardPage.jsx:92 | `split(" ")[0]`: a space-free prefix followed by a space or by the end of the string |
| BoardPage.DateLabel | src/pages/BoardPage.jsx:92 | "-" for a missing or empty date, otherwise the part before the first space |
| BoardPage.NoSpaceShownWhole | src/pages/BoardPage.jsx:92 | a date with no space is shown whole |
| BoardPage.DateLabelKeepsDate | src/pages/BoardPage.jsx:92 | a "date time" value is shown as its date |
| BoardPage.WriteClickTarget | src/pages/BoardPage.jsx:34-41 | the write button leads to the login page exactly when no user is logged in |
| BoardWritePage.ErrorMessage | src/pages/BoardWritePage.jsx:50 | never empty; a non-empty `message` wins, then a non-empty text body, then "[object Object]" for an object body without a message, then "서버 오류 발생" |
| BoardWritePage.CanSubmit | src/pages/BoardWritePage.jsx:28 | the submit guard: both title and content are non-blank after trimming |
| BoardWritePage.CanSubmitIffVisibleText | src/pages/BoardWritePage.jsx:28 | a post goes out exactly when title and content each hold a non-whitespace character |
| BoardWritePage.BoardWriteView.constructor | src/pages/BoardWritePage.jsx:11-15 | empty fields with category "주식", no files |
| BoardWritePage.BoardWriteView.HandleFileChange | src/pages/BoardWritePage.jsx:18-24 | a pick replaces the files and the previews, which follow the files one for one |
| BoardWritePage.BoardWriteView.HandleSubmit | src/pages/BoardWritePage.jsx:27-53 | blank title or content gives the fill-in alert and no request; otherwise the fields and files as one multipart body; a failure alert carries the `ErrorMessage` text |
| NewsDetailPage.MetaDescription | src/pages/NewsDetailPage.jsx:56 | the first min(100, length) characters of a non-empty description, otherwise "뉴스 요약" |
| NewsDetailPage.ShortDescriptionKept | src/pages/NewsDetailPage.jsx:56 | a description of at most 100 characters is used as it is |
| NewsDetailPage.CommentCount | src/pages/NewsDetailPage.jsx:101 | the number of comments, 0 when the list is absent |
| NewsDetailPage.CategoryLabel | src/pages/NewsDetailPage.jsx:69 | never empty: the category when present and non-empty, otherwise "뉴스" |
| NewsDetailPage.NewsDetailView.constructor | src/pages/NewsDetailPage.jsx:14-16 | no news and an empty comment input |
| NewsDetailPage.NewsDetailView.DetailEffect | src/pages/NewsDetailPage.jsx:32 | on mount the news item with the page's id is requested |
| NewsDetailPage.NewsDetailView.DetailLoaded | src/pages/NewsDetailPage.jsx:19-30 | the news becomes the answer; an error leaves the page |
| NewsDetailPage.NewsDetailView.TypeComment | src/pages/NewsDetailPage.jsx:109 | the comment input holds what was typed |
| NewsDetailPage.NewsDetailView.HandleCommentSubmit | src/pages/NewsDetailPage.jsx:35-46 | the login check comes first and alerts; blank text then sends nothing; an accepted comment clears the input and refetches; a failure changes nothing |

## Left out

- Network calls: every `axios` request the model covers, from a handler or from a loading effect, is a returned `Call` value, and its answer is a parameter of the method that stores it. Each handler therefore runs atomically after its answer arrives. Two handlers in flight at once, and their interleaving on React's event loop, are not modelled.
- `window.confirm`, `alert`, `window.open` and `navigate` are `bool` parameters or returned values (`leave`, `alert`, `OpenLink`), or are left out. `URL.createObjectURL` is the function parameter `objectUrl`, and a browser `File` is an opaque token.
- The 30-second `setInterval` polling timer is not modelled. `Layout.NotificationHeader.Poll` is one tick of it.
- JSON serialization of the "data" blob and the `FormData` wire format are not modelled. A body is the ordered `Part` list.
- Strings are sequences of Unicode scalar values. JavaScript strings are UTF-16, so `substring(0, 100)` in `NewsDetailPage.MetaDescription` counts code units, and a description holding characters outside the Basic Multilingual Plane is cut at a different place.
- `toLocaleString` date formatting, `dangerouslySetInnerHTML`, Helmet's page title, styles and JSX layout are left out. They do no state updates.
- The `loading` flags of the pages are left out. They only choose between a "loading" text and the content.
- The MyPage profile editor's file picker and `handleSaveProfile` are left out. They are form-to-backend glue with no state rule beyond closing the editor.
- Post deletion on the board detail page (`handleDeletePost`) is left out. It navigates away and keeps no state.
- The board list's category tabs and its posts fetch are left out. They replace the list wholesale.
- The feed page's comment-section toggle (`activeCommentId`) is a field with no handler in the model. It only chooses which card shows its comments.
- src/pages/NewsPage.jsx, src/App.jsx, src/context/UserContext.jsx and the login, signup and static pages are not part of this model.
- `BoardWritePage.ErrorMessage`: a response body that is a number, an array or `true` is not modelled. Only no body, text bodies and object bodies are.
- FeedPage.FeedView.FeedsLoaded: the answer is taken to be a list. An empty or non-list body, which `setFeeds(res.data)` stores and the next render's `feeds.map` then throws on, is not modelled.
- MyPage.MyPageView.HandleToggleFollow: the followings refetch is taken to be a list. An empty body stored by `setFollowings(fingRes.data)`, unlike the initial load's `|| []`, is not modelled.
- MyPage.MyPageView.HandleAddKeyword: the server's keyword list is taken to be present. An empty body stored by `setKeywords(res.data)` is not modelled.
- MyPage.MyPageView.HandleDeleteKeyword: the server's keyword list is taken to be present. An empty body stored by `setKeywords(res.data)` is not modelled.
- Layout.NotificationHeader.ToggleNotification: the notification list is taken to be present. An empty body stored by `setNotifications(res.data)` is not modelled.
- BoardEditPage.BoardEditView.LoadPost: the post's `images` is taken to be a list. A missing `images`, stored as is by `setExistingImages(images)`, is not modelled.
