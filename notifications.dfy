/** The notification list: loading, and the click that marks a notification
    read and opens the task it is about. The two backend helpers it calls are
    given as their results. */
module Notifications {
  import opened Browser

  const LoadError: string := "Failed to load notifications."
  const MyTasksContext: string := "my_tasks"

  datatype Notification = Notification(id: int, read: bool, context: string, taskId: string, commentId: string)

  /** The router call a click makes: the path, and the comment to highlight
      carried in the navigation state. */
  datatype Navigation = Navigation(route: string, highlightCommentId: string)

  /** The functional update after a successful mark: every notification with
      that id becomes read, and every other one is left as it is. */
  function MarkRead(ns: seq<Notification>, id: int): (r: seq<Notification>)
    ensures |r| == |ns|
    ensures forall i :: 0 <= i < |ns| ==> r[i] == if ns[i].id == id then ns[i].(read := true) else ns[i]
  {
    if ns == [] then []
    else MarkRead(ns[..|ns| - 1], id)
         + [if ns[|ns| - 1].id == id then ns[|ns| - 1].(read := true) else ns[|ns| - 1]]
  }

  /** After marking, no notification with that id is unread, and the unread
      ones that remain are exactly the other unread ones; marking again
      changes nothing. */
  lemma MarkReadSettles(ns: seq<Notification>, id: int)
    ensures forall i :: 0 <= i < |ns| ==> (!MarkRead(ns, id)[i].read <==> !ns[i].read && ns[i].id != id)
    ensures MarkRead(MarkRead(ns, id), id) == MarkRead(ns, id)
  {
    var once := MarkRead(ns, id);
    var twice := MarkRead(once, id);
    assert |twice| == |once|;
    forall i | 0 <= i < |once|
      ensures twice[i] == once[i]
    {
    }
  }

  /** The route a notification opens: the user's own task board for a
      `my_tasks` notification, the followed-tasks view otherwise. */
  function RouteFor(n: Notification): (route: string)
    ensures route == "/tasks/" + n.taskId <==> n.context == MyTasksContext
    ensures n.context != MyTasksContext ==> route == "/followed_tasks/" + n.taskId
  {
    if n.context == MyTasksContext then "/tasks/" + n.taskId
    else
      assert ("/followed_tasks/" + n.taskId)[1] == 'f' && ("/tasks/" + n.taskId)[1] == 't';
      "/followed_tasks/" + n.taskId
  }

  class NotificationList {
    var notifications: seq<Notification>
    var error: Option<string>

    constructor ()
      ensures notifications == [] && error == None
    {
      notifications, error := [], None;
    }

    /** `loadNotifications`, given the list the helper resolved with, or None
        when it failed. */
    method LoadNotifications(fetched: Option<seq<Notification>>)
      modifies this
      ensures fetched.Some? ==> notifications == fetched.value && error == old(error)
      ensures fetched.None? ==> notifications == old(notifications) && error == Some(LoadError)
    {
      if fetched.Some? {
        notifications := fetched.value;
      } else {
        error := Some(LoadError);
      }
    }

    /** `handleNotificationClick(n)`, given whether the mark request succeeds.
        An unread notification is marked first; a read one is not. After the
        mark (or none), the notification's route opens with its comment to
        highlight. A failed mark leaves the list as it is and opens nothing. */
    method HandleNotificationClick(n: Notification, markSucceeds: bool)
      returns (markCalled: bool, nav: Option<Navigation>)
      modifies this
      ensures markCalled == !n.read
      ensures error == old(error)
      ensures n.read ==> notifications == old(notifications) && nav == Some(Navigation(RouteFor(n), n.commentId))
      ensures !n.read && markSucceeds ==>
        notifications == MarkRead(old(notifications), n.id) && nav == Some(Navigation(RouteFor(n), n.commentId))
      ensures !n.read && !markSucceeds ==> notifications == old(notifications) && nav == None
    {
      markCalled := !n.read;
      if !n.read {
        if !markSucceeds {
          return markCalled, None;
        }
        notifications := MarkRead(notifications, n.id);
      }
      nav := Some(Navigation(RouteFor(n), n.commentId));
    }
  }
}
