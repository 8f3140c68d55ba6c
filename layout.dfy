/** The header's notification state: the unread counter kept up to date by a
    poll, the panel that fetches the list when it opens, and the read action. */
module Layout {
  import opened Common

  datatype Notification = Notification(id: int, message: string, link: string, read: bool,
                                       createdAt: string)

  /** `Math.max(0, prev - 1)`: one less, never below zero. */
  function Decremented(count: int): (r: int)
    ensures r >= 0
    ensures count >= 1 ==> r == count - 1
    ensures count <= 1 ==> r == 0
  {
    if count - 1 > 0 then count - 1 else 0
  }

  /** The counter after `k` successful reads and no poll in between. */
  function DecrementedTimes(count: int, k: nat): int
  {
    if k == 0 then count else Decremented(DecrementedTimes(count, k - 1))
  }

  /** However many reads succeed, the counter ends at the old count less the
      number of reads, floored at zero; it never goes negative. */
  lemma {:induction false} ReadsSaturate(count: nat, k: nat)
    ensures DecrementedTimes(count, k) == if k <= count then count - k else 0
  {
    if k > 0 {
      ReadsSaturate(count, k - 1);
    }
  }

  /** The red badge on the bell. */
  predicate ShowsBadge(unreadCount: int)
  {
    unreadCount > 0
  }

  /** The dot on an item of the panel. */
  predicate ShowsNewDot(n: Notification)
  {
    !n.read
  }

  /** Reading the last unread notification takes the badge away, and a count
      already at zero stays at zero without a badge. */
  lemma BadgeAfterRead(count: int)
    ensures ShowsBadge(Decremented(count)) <==> count > 1
  {
  }

  datatype Call = FetchUnreadCount | FetchNotifications | MarkRead(id: int) | OpenLink(link: string)

  class NotificationHeader {
    var unreadCount: int
    var isNotiOpen: bool
    var notifications: seq<Notification>

    constructor ()
      ensures unreadCount == 0 && !isNotiOpen && notifications == []
    {
      unreadCount, isNotiOpen, notifications := 0, false, [];
    }

    /** The session effect: without a user the counter is reset to zero and no
        poll starts; with one, the first poll is issued right away. */
    method SessionChanged(user: Option<User>) returns (calls: seq<Call>)
      modifies this`unreadCount
      ensures user.None? ==> unreadCount == 0 && calls == []
      ensures user.Some? ==> unreadCount == old(unreadCount) && calls == [FetchUnreadCount]
    {
      if user.None? {
        unreadCount := 0;
        return [];
      }
      calls := [FetchUnreadCount];
    }

    /** `checkUnread`: the counter is replaced by the server's value, not added
        to; a failed poll leaves it as it was. */
    method Poll(response: Response<int>)
      modifies this`unreadCount
      ensures unreadCount == if response.Ok? then response.data else old(unreadCount)
    {
      if response.Ok? {
        unreadCount := response.data;
      }
    }

    /** `toggleNotification`: opening a closed panel fetches the list (kept on
        failure); the panel flips in either case, and closing fetches nothing. */
    method ToggleNotification(response: Response<seq<Notification>>) returns (calls: seq<Call>)
      modifies this`isNotiOpen, this`notifications
      ensures isNotiOpen == !old(isNotiOpen)
      ensures calls == if old(isNotiOpen) then [] else [FetchNotifications]
      ensures notifications ==
              if !old(isNotiOpen) && response.Ok? then response.data else old(notifications)
    {
      if !isNotiOpen {
        calls := [FetchNotifications];
        if response.Ok? {
          notifications := response.data;
        }
      } else {
        calls := [];
      }
      isNotiOpen := !isNotiOpen;
    }

    /** The close button of the panel. */
    method Close()
      modifies this`isNotiOpen
      ensures !isNotiOpen
    {
      isNotiOpen := false;
    }

    /** `handleNotiClick`: once the server marks it read, the counter drops by
        one (floored at zero), the panel closes and the link opens. On failure
        nothing changes. The list and its `read` flags are never touched. */
    method HandleNotiClick(n: Notification, response: Response<()>) returns (calls: seq<Call>)
      modifies this`unreadCount, this`isNotiOpen
      ensures calls == [MarkRead(n.id)] + (if response.Ok? then [OpenLink(n.link)] else [])
      ensures response.Ok? ==> unreadCount == Decremented(old(unreadCount)) && !isNotiOpen
      ensures response.Err? ==> unreadCount == old(unreadCount) && isNotiOpen == old(isNotiOpen)
    {
      calls := [MarkRead(n.id)];
      if response.Ok? {
        unreadCount := Decremented(unreadCount);
        isNotiOpen := false;
        calls := calls + [OpenLink(n.link)];
      }
    }
  }
}
