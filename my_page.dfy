/** My page: the follower and following lists and how a follow toggle rewrites
    them depending on which list is open, the subscribed keywords, the
    nickname editor and the three stat numbers. */
module MyPage {
  import opened Common
  import opened Lists

  /** An entry of the follower or following list. */
  datatype Member = Member(email: string, nickname: string, isFollowedByMe: bool)

  /** The modal that is open, if any (`activeModal`). */
  datatype Modal = FollowingList | FollowerList | KeywordList

  /** The unfollow updater for the following list, `prev.filter(u => u.email !== targetEmail)`. */
  function Unfollowed(list: seq<Member>, email: string): (r: seq<Member>)
    ensures forall i :: 0 <= i < |r| ==> r[i] in list && r[i].email != email
    ensures forall i :: 0 <= i < |list| && list[i].email != email ==> list[i] in r
  {
    Filter(list, (u: Member) => u.email != email)
  }

  /** The follower-list updater: the entries with that email take the answer. */
  function WithFollowFlag(list: seq<Member>, email: string, following: bool): (r: seq<Member>)
    ensures |r| == |list|
    ensures forall i :: 0 <= i < |list| && list[i].email == email ==>
              r[i] == list[i].(isFollowedByMe := following)
    ensures forall i :: 0 <= i < |list| && list[i].email != email ==> r[i] == list[i]
  {
    if list == [] then []
    else
      var u := list[0];
      [if u.email == email then u.(isFollowedByMe := following) else u]
      + WithFollowFlag(list[1..], email, following)
  }

  /** How many entries of a list carry an email. */
  function CountEmail(list: seq<Member>, email: string): (n: nat)
    ensures n <= |list|
  {
    if list == [] then 0 else (if list[0].email == email then 1 else 0) + CountEmail(list[1..], email)
  }

  /** Unfollowing removes exactly the entries with that email, so the following
      stat drops by their number, and a list without that email is untouched. */
  lemma {:induction false} UnfollowedCount(list: seq<Member>, email: string)
    ensures |Unfollowed(list, email)| == |list| - CountEmail(list, email)
    ensures CountEmail(list, email) == 0 ==> Unfollowed(list, email) == list
  {
    if list != [] {
      UnfollowedCount(list[1..], email);
      assert Unfollowed(list, email) ==
             (if list[0].email != email then [list[0]] else []) + Unfollowed(list[1..], email);
    }
  }

  /** The emails offered a follow button: every entry except the user's own. */
  function FollowButtonTargets(me: User, list: seq<Member>): (r: seq<string>)
    ensures me.email !in r
    ensures forall i :: 0 <= i < |list| && list[i].email != me.email ==> list[i].email in r
    ensures forall e :: e in r ==> exists i :: 0 <= i < |list| && list[i].email == e
  {
    if list == [] then []
    else
      (if list[0].email != me.email then [list[0].email] else []) + FollowButtonTargets(me, list[1..])
  }

  /** The name shown and first put in the editor, `user.nickname || user.name`. */
  function DisplayName(user: User): (r: string)
    ensures user.nickname.Some? && user.nickname.value != "" ==> r == user.nickname.value
    ensures user.nickname.None? || user.nickname == Some("") ==> r == user.name
  {
    OrElse(user.nickname, user.name)
  }

  /** The three stat numbers. */
  datatype Stats = Stats(following: nat, follower: nat, keyword: nat)

  datatype Call =
    | FetchKeywords
    | FetchFollowers
    | FetchFollowings
    | ToggleFollow(email: string)
    | AddKeyword(keyword: string)
    | DeleteKeyword(keyword: string)

  class MyPageView {
    var isEditing: bool
    /** The nickname input; `None` is the `undefined` cancel can put there. */
    var nickname: Option<string>
    var keywords: seq<string>
    var followers: seq<Member>
    var followings: seq<Member>
    var activeModal: Option<Modal>
    var newKeyword: string

    constructor ()
      ensures !isEditing && nickname == Some("") && keywords == [] && followers == [] && followings == []
      ensures activeModal == None && newKeyword == ""
    {
      isEditing, nickname := false, Some("");
      keywords, followers, followings := [], [], [];
      activeModal, newKeyword := None, "";
    }

    /** The numbers shown above the lists are the lengths of the lists. */
    function StatNumbers(): (s: Stats)
      reads this
      ensures s.following == |followings| && s.follower == |followers| && s.keyword == |keywords|
    {
      Stats(|followings|, |followers|, |keywords|)
    }

    /** The session effect: with no user it does nothing; with a user the
        editor starts on the display name and the keywords, followers and
        followings are requested, in that order. */
    method SessionLoaded(user: Option<User>) returns (calls: seq<Call>)
      modifies this`nickname
      ensures calls == if user.Some? then [FetchKeywords, FetchFollowers, FetchFollowings] else []
      ensures nickname == if user.Some? then Some(DisplayName(user.value)) else old(nickname)
    {
      if user.None? {
        return [];
      }
      nickname := Some(DisplayName(user.value));
      calls := [FetchKeywords, FetchFollowers, FetchFollowings];
    }

    /** The three initial loads; a missing body is read as an empty list. */
    method KeywordsLoaded(response: Response<Option<seq<string>>>)
      modifies this`keywords
      ensures keywords == match response
                          case Ok(Some(list)) => list
                          case Ok(None) => []
                          case Err => old(keywords)
    {
      match response
      case Ok(data) => keywords := if data.Some? then data.value else [];
      case Err =>
    }

    method FollowersLoaded(response: Response<Option<seq<Member>>>)
      modifies this`followers
      ensures followers == match response
                           case Ok(Some(list)) => list
                           case Ok(None) => []
                           case Err => old(followers)
    {
      match response
      case Ok(data) => followers := if data.Some? then data.value else [];
      case Err =>
    }

    method FollowingsLoaded(response: Response<Option<seq<Member>>>)
      modifies this`followings
      ensures followings == match response
                            case Ok(Some(list)) => list
                            case Ok(None) => []
                            case Err => old(followings)
    {
      match response
      case Ok(data) => followings := if data.Some? then data.value else [];
      case Err =>
    }

    method OpenModal(m: Option<Modal>)
      modifies this`activeModal
      ensures activeModal == m
    {
      activeModal := m;
    }

    /** `handleToggleFollow`. In the following list an unfollow answer removes
        the entries with that email and a follow answer changes nothing; in the
        follower list the matching entries take the answer and the following
        list is then replaced by a refetch (kept if the refetch fails). A failed
        toggle changes neither list. */
    method HandleToggleFollow(target: string, response: Response<bool>, refetch: Response<seq<Member>>)
      returns (calls: seq<Call>)
      modifies this`followers, this`followings
      ensures calls == [ToggleFollow(target)] +
                       (if response.Ok? && activeModal == Some(FollowerList) then [FetchFollowings] else [])
      ensures response.Err? || activeModal !in {Some(FollowingList), Some(FollowerList)} ==>
                followers == old(followers) && followings == old(followings)
      ensures response.Ok? && activeModal == Some(FollowingList) ==>
                followers == old(followers) &&
                followings == if response.data then old(followings) else Unfollowed(old(followings), target)
      ensures response.Ok? && activeModal == Some(FollowerList) ==>
                followers == WithFollowFlag(old(followers), target, response.data) &&
                followings == if refetch.Ok? then refetch.data else old(followings)
    {
      calls := [ToggleFollow(target)];
      if response.Err? {
        return;
      }
      var isFollowingNow := response.data;
      if activeModal == Some(FollowingList) {
        if !isFollowingNow {
          followings := Unfollowed(followings, target);
        }
      } else if activeModal == Some(FollowerList) {
        followers := WithFollowFlag(followers, target, isFollowingNow);
        calls := calls + [FetchFollowings];
        if refetch.Ok? {
          followings := refetch.data;
        }
      }
    }

    method TypeKeyword(text: string)
      modifies this`newKeyword
      ensures newKeyword == text
    {
      newKeyword := text;
    }

    /** `handleAddKeyword`: a blank keyword issues nothing; an accepted one
        replaces the list by the server's list and clears the input. */
    method HandleAddKeyword(response: Response<seq<string>>) returns (calls: seq<Call>)
      modifies this`keywords, this`newKeyword
      ensures IsBlank(old(newKeyword)) ==> calls == [] && unchanged(this)
      ensures !IsBlank(old(newKeyword)) ==> calls == [AddKeyword(old(newKeyword))]
      ensures !IsBlank(old(newKeyword)) && response.Ok? ==> keywords == response.data && newKeyword == ""
      ensures response.Err? ==> unchanged(this)
    {
      if IsBlank(newKeyword) {
        return [];
      }
      calls := [AddKeyword(newKeyword)];
      if response.Ok? {
        keywords, newKeyword := response.data, "";
      }
    }

    /** `handleDeleteKeyword`: confirmed, the list becomes the server's answer. */
    method HandleDeleteKeyword(keyword: string, confirmed: bool, response: Response<seq<string>>)
      returns (calls: seq<Call>)
      modifies this`keywords
      ensures calls == if confirmed then [DeleteKeyword(keyword)] else []
      ensures keywords == if confirmed && response.Ok? then response.data else old(keywords)
    {
      if !confirmed {
        return [];
      }
      calls := [DeleteKeyword(keyword)];
      if response.Ok? {
        keywords := response.data;
      }
    }

    method StartEditing()
      modifies this`isEditing
      ensures isEditing
    {
      isEditing := true;
    }

    /** The cancel button: leaves edit mode and puts `user.nickname` back,
        which is `undefined` for a user without a nickname, not the name the
        editor started on. */
    method CancelEditing(user: User)
      modifies this`isEditing, this`nickname
      ensures !isEditing && nickname == user.nickname
    {
      isEditing, nickname := false, user.nickname;
    }
  }

  /** A fresh page loads the session, opens the nickname editor and cancels:
      the editor started on the display name, and cancel leaves
      `user.nickname`, which for a user without a nickname is `undefined`
      rather than the name shown before. */
  method CancelDoesNotRestoreInitialNickname(user: User) returns (before: Option<string>, after: Option<string>)
    ensures before == Some(DisplayName(user)) && after == user.nickname
    ensures user.nickname.None? ==> before == Some(user.name) && after == None && before != after
  {
    var v := new MyPageView();
    var _ := v.SessionLoaded(Some(user));
    before := v.nickname;
    v.StartEditing();
    v.CancelEditing(user);
    after := v.nickname;
  }
}
