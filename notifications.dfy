/** The notification endpoints (app/api/notifications.py) over the notifications table:
 *  the caller's newest twenty, marking one or all as read, and deleting one. */
module Notifications {
  import opened Common
  import opened Records
  import Sorting

  type NotificationId = nat

  const PAGE_SIZE := 20
  const NOT_FOUND := "Notification not found"

  datatype Notification = Notification(
    id: NotificationId,
    userId: UserId,
    workspaceId: Option<WorkspaceId>,
    message: string,
    aiInsight: Option<string>,
    isRead: bool,
    createdAt: int)

  function CreatedAt(n: Notification): real
  {
    n.createdAt as real
  }

  /** The caller's rows, in table order. */
  function OwnRows(rows: seq<Notification>, user: UserId): (r: seq<Notification>)
    ensures forall n :: n in r <==> n in rows && n.userId == user
    ensures |r| <= |rows|
  {
    if rows == [] then []
    else
      var init := rows[..|rows| - 1];
      var last := rows[|rows| - 1];
      assert rows == init + [last];
      OwnRows(init, user) + (if last.userId == user then [last] else [])
  }

  /** `get_notifications`: the caller's rows ordered by `created_at` descending, at most
   *  twenty (rows with equal times keep their table order). */
  function ListNotifications(rows: seq<Notification>, user: UserId): seq<Notification>
  {
    Sorting.Take(Sorting.SortDesc(OwnRows(rows, user), CreatedAt), PAGE_SIZE)
  }

  /** The list holds only the caller's rows, newest first, at most twenty, and all of them
   *  when the caller has no more than twenty. */
  lemma ListIsOwnNewestFirst(rows: seq<Notification>, user: UserId)
    ensures var r := ListNotifications(rows, user);
      |r| <= PAGE_SIZE
      && (|OwnRows(rows, user)| <= PAGE_SIZE ==> r == Sorting.SortDesc(OwnRows(rows, user), CreatedAt))
      && (forall i :: 0 <= i < |r| ==> r[i] in rows && r[i].userId == user)
      && (forall i, j :: 0 <= i < j < |r| ==> r[i].createdAt >= r[j].createdAt)
  {
    var own := OwnRows(rows, user);
    var sorted := Sorting.SortDesc(own, CreatedAt);
    var r := ListNotifications(rows, user);
    forall i | 0 <= i < |r|
      ensures r[i] in own
    {
      assert r[i] == sorted[i];
      assert sorted[i] in multiset(own);
    }
    forall i, j | 0 <= i < j < |r|
      ensures r[i].createdAt >= r[j].createdAt
    {
      assert CreatedAt(sorted[i]) >= CreatedAt(sorted[j]);
    }
  }

  /** No row of the caller that is left out of the list is newer than one listed. */
  lemma ListKeepsNewest(rows: seq<Notification>, user: UserId)
    ensures var r := ListNotifications(rows, user);
      multiset(r) <= multiset(OwnRows(rows, user))
      && forall x, y :: x in r && y in multiset(OwnRows(rows, user)) - multiset(r) ==> x.createdAt >= y.createdAt
  {
    Sorting.TakeSortedTop(OwnRows(rows, user), CreatedAt, PAGE_SIZE);
  }

  /** The position of the caller's row with that id (the `filter(...).first()` of the
   *  handlers). */
  function FindOwn(rows: seq<Notification>, id: NotificationId, user: UserId): (r: Option<nat>)
    ensures r.Some? ==> r.value < |rows| && rows[r.value].id == id && rows[r.value].userId == user
    ensures r.None? ==> forall i :: 0 <= i < |rows| ==> !(rows[i].id == id && rows[i].userId == user)
  {
    if rows == [] then None
    else
      var r := FindOwn(rows[..|rows| - 1], id, user);
      if r.Some? then r
      else if rows[|rows| - 1].id == id && rows[|rows| - 1].userId == user then Some(|rows| - 1)
      else None
  }

  function MarkedRead(n: Notification, user: UserId): Notification
  {
    if n.userId == user && !n.isRead then n.(isRead := true) else n
  }

  function AllMarkedRead(rows: seq<Notification>, user: UserId): (r: seq<Notification>)
    ensures |r| == |rows|
    ensures forall i :: 0 <= i < |rows| ==> r[i] == MarkedRead(rows[i], user)
  {
    seq(|rows|, i requires 0 <= i < |rows| => MarkedRead(rows[i], user))
  }

  /** After `read-all` every row of the caller is read, and every row of another user is
   *  exactly as it was. */
  lemma ReadAllMeaning(rows: seq<Notification>, user: UserId)
    ensures var r := AllMarkedRead(rows, user);
      (forall i :: 0 <= i < |r| && r[i].userId == user ==> r[i].isRead)
      && (forall i :: 0 <= i < |r| && rows[i].userId != user ==> r[i] == rows[i])
      && forall i :: 0 <= i < |r| ==> r[i].(isRead := rows[i].isRead) == rows[i]
  {
  }

  class NotificationTable {
    var rows: seq<Notification>

    constructor (rows: seq<Notification>)
      ensures this.rows == rows
    {
      this.rows := rows;
    }

    method GetNotifications(user: UserId) returns (r: seq<Notification>)
      ensures r == ListNotifications(rows, user)
    {
      var own := OwnRows(rows, user);
      r := Sorting.Take(Sorting.SortDesc(own, CreatedAt), PAGE_SIZE);
    }

    /** `mark_notification_as_read`: 404 unless the row exists and is the caller's; the row
     *  is returned read, and only it may change. */
    method MarkAsRead(id: NotificationId, user: UserId) returns (r: Result<Notification>)
      modifies this
      ensures FindOwn(old(rows), id, user).None? ==> r == Err(404, NOT_FOUND) && rows == old(rows)
      ensures FindOwn(old(rows), id, user).Some? ==>
        var i := FindOwn(old(rows), id, user).value;
        rows == old(rows)[i := old(rows)[i].(isRead := true)] && r == Ok(rows[i])
    {
      var found := FindOwn(rows, id, user);
      if found.None? {
        return Err(404, NOT_FOUND);
      }
      var n := rows[found.value];
      if !n.isRead {
        n := n.(isRead := true);
        rows := rows[found.value := n];
      }
      r := Ok(n);
    }

    /** `mark_all_as_read`: 204; one bulk update makes every unread row of the caller read. */
    method MarkAllAsRead(user: UserId)
      modifies this
      ensures rows == AllMarkedRead(old(rows), user)
    {
      rows := AllMarkedRead(rows, user);
    }

    /** `delete_notification`: always 204; removes the caller's row with that id when there
     *  is one, and nothing otherwise. */
    method DeleteNotification(id: NotificationId, user: UserId)
      modifies this
      ensures FindOwn(old(rows), id, user).None? ==> rows == old(rows)
      ensures FindOwn(old(rows), id, user).Some? ==>
        var i := FindOwn(old(rows), id, user).value;
        rows == old(rows)[..i] + old(rows)[i + 1..]
    {
      var found := FindOwn(rows, id, user);
      if found.Some? {
        rows := rows[..found.value] + rows[found.value + 1..];
      }
    }
  }

  /** Marking twice is marking once: the second call changes nothing. */
  lemma MarkReadIdempotent(n: Notification, user: UserId)
    ensures MarkedRead(MarkedRead(n, user), user) == MarkedRead(n, user)
  {
  }

  // ---------------------------------------------------------------- the router

  /** The endpoints below the router's `/notifications` prefix. `DeleteAll` is not served by
   *  the router as written; it is the endpoint the frontend's "clear all" expects. */
  datatype Endpoint = ListAll | MarkOneRead(id: string) | MarkAllRead | DeleteOne(id: string) | DeleteAll

  /** One path segment: non-empty and without `/`. */
  predicate Segment(s: string)
  {
    s != [] && '/' !in s
  }

  /** The route a request reaches, in declaration order; none means 404 or 405. A segment
   *  that is not a UUID reaches its route and is refused there with 422, which is not
   *  modelled. */
  function Route(httpMethod: string, path: string): (r: Option<Endpoint>)
    ensures r.Some? ==> r.value != DeleteAll
    ensures httpMethod == "DELETE" ==> (r.Some? <==> |path| > 1 && path[0] == '/' && Segment(path[1..]))
  {
    if httpMethod == "GET" && path == "/" then Some(ListAll)
    else if httpMethod == "POST" && |path| > 6 && path[0] == '/' && path[|path| - 5..] == "/read"
            && Segment(path[1..|path| - 5]) then Some(MarkOneRead(path[1..|path| - 5]))
    else if httpMethod == "POST" && path == "/read-all" then Some(MarkAllRead)
    else if httpMethod == "DELETE" && |path| > 1 && path[0] == '/' && Segment(path[1..]) then Some(DeleteOne(path[1..]))
    else None
  }

  /** No route serves `DELETE /notifications/`, the request the notifications page sends to
   *  clear the list; only `GET` is served on that path. */
  lemma NoClearAllRoute()
    ensures Route("DELETE", "/") == None
    ensures Route("GET", "/") == Some(ListAll)
  {
  }

  /** The router with the missing endpoint added. */
  function RouteWithClearAll(httpMethod: string, path: string): (r: Option<Endpoint>)
    ensures httpMethod == "DELETE" && path == "/" ==> r == Some(DeleteAll)
    ensures !(httpMethod == "DELETE" && path == "/") ==> r == Route(httpMethod, path)
  {
    if httpMethod == "DELETE" && path == "/" then Some(DeleteAll) else Route(httpMethod, path)
  }

  /** The table after the caller's rows are deleted. */
  function ClearedRows(rows: seq<Notification>, user: UserId): (r: seq<Notification>)
    ensures forall n :: n in r <==> n in rows && n.userId != user
  {
    if rows == [] then []
    else
      var init := rows[..|rows| - 1];
      var last := rows[|rows| - 1];
      assert rows == init + [last];
      ClearedRows(init, user) + (if last.userId != user then [last] else [])
  }

  /** With the endpoint added, clearing leaves the caller an empty list and every other
   *  user's notifications exactly as they were. */
  lemma ClearAllIntended(rows: seq<Notification>, user: UserId, other: UserId)
    requires other != user
    ensures RouteWithClearAll("DELETE", "/") == Some(DeleteAll)
    ensures ListNotifications(ClearedRows(rows, user), user) == []
    ensures OwnRows(ClearedRows(rows, user), other) == OwnRows(rows, other)
  {
    ClearKeepsOthers(rows, user, other);
    ClearLeavesNoOwn(rows, user);
  }

  /** Deleting a user's rows leaves none of them. */
  lemma {:induction false} ClearLeavesNoOwn(rows: seq<Notification>, user: UserId)
    ensures OwnRows(ClearedRows(rows, user), user) == []
  {
    if rows != [] {
      var init := rows[..|rows| - 1];
      var last := rows[|rows| - 1];
      ClearLeavesNoOwn(init, user);
      var cleared := ClearedRows(rows, user);
      if last.userId != user {
        assert cleared[..|cleared| - 1] == ClearedRows(init, user);
      } else {
        assert cleared == ClearedRows(init, user);
      }
    }
  }

  /** Deleting one user's rows leaves another user's rows, in order. */
  lemma {:induction false} ClearKeepsOthers(rows: seq<Notification>, user: UserId, other: UserId)
    requires other != user
    ensures OwnRows(ClearedRows(rows, user), other) == OwnRows(rows, other)
  {
    if rows != [] {
      var init := rows[..|rows| - 1];
      var last := rows[|rows| - 1];
      ClearKeepsOthers(init, user, other);
      var cleared := ClearedRows(rows, user);
      if last.userId != user {
        assert cleared[..|cleared| - 1] == ClearedRows(init, user);
      } else {
        assert cleared == ClearedRows(init, user);
      }
    }
  }
}
