/** The WebSocket registry of the backend (app/core/connection_manager.py): the open sockets
 *  of each workspace channel and of each user channel, keyed by the id as text. */
module ConnectionManager {

  /** A connected WebSocket, known only by its identity. */
  type Socket = nat

  type Registry = map<string, seq<Socket>>

  /** No channel is kept with an empty list of sockets. */
  predicate NoEmptyLists(m: Registry)
  {
    forall k :: k in m ==> m[k] != []
  }

  /** The sockets of a channel, none when it is absent. */
  function Sockets(m: Registry, key: string): seq<Socket>
  {
    if key in m then m[key] else []
  }

  /** The registry after `socket` joins `key`: appended to its list, which is created when
   *  absent. */
  function Joined(m: Registry, key: string, socket: Socket): (r: Registry)
    ensures r.Keys == m.Keys + {key}
    ensures r[key] == Sockets(m, key) + [socket]
    ensures forall k :: k in m && k != key ==> r[k] == m[k]
    ensures NoEmptyLists(m) ==> NoEmptyLists(r)
  {
    m[key := Sockets(m, key) + [socket]]
  }

  /** The position of the first occurrence of `x` in `s`. */
  function IndexOf(s: seq<Socket>, x: Socket): (i: nat)
    requires x in s
    ensures i < |s| && s[i] == x && x !in s[..i]
  {
    if s[0] == x then 0 else 1 + IndexOf(s[1..], x)
  }

  /** `list.remove(x)`: the first occurrence of `x` taken out. */
  function Removed(s: seq<Socket>, x: Socket): (r: seq<Socket>)
    requires x in s
    ensures multiset(r) == multiset(s) - multiset{x}
    ensures |r| == |s| - 1
  {
    var i := IndexOf(s, x);
    assert s == s[..i] + [x] + s[i + 1..];
    s[..i] + s[i + 1..]
  }

  /** Whatever position holds the first occurrence, `Removed` takes out that one and keeps
   *  the rest in order. */
  lemma RemovedFirst(s: seq<Socket>, x: Socket, i: nat)
    requires i < |s| && s[i] == x && x !in s[..i]
    ensures Removed(s, x) == s[..i] + s[i + 1..]
  {
  }

  /** The registry after `socket` leaves `key`: its first occurrence is removed and a list left
   *  empty is deleted with its key. An absent key or socket leaves the registry as it was. */
  function Left(m: Registry, key: string, socket: Socket): (r: Registry)
    ensures key !in m || socket !in m[key] ==> r == m
    ensures forall k :: k in m && k != key ==> k in r && r[k] == m[k]
    ensures r.Keys <= m.Keys
    ensures NoEmptyLists(m) ==> NoEmptyLists(r)
    ensures key in m && socket in m[key] ==>
      multiset(Sockets(r, key)) == multiset(m[key]) - multiset{socket}
      && (key in r <==> |m[key]| > 1)
  {
    if key in m && socket in m[key] then
      var rest := Removed(m[key], socket);
      if rest == [] then m - {key} else m[key := rest]
    else m
  }

  lemma RemoveLast(s: seq<Socket>, x: Socket)
    requires x !in s
    ensures Removed(s + [x], x) == s
  {
    assert IndexOf(s + [x], x) == |s|;
    assert (s + [x])[..|s|] == s;
  }

  /** Joining and then leaving with a socket that was not yet on the channel restores the
   *  registry; if it was, the channel keeps the same sockets. */
  lemma JoinThenLeave(m: Registry, key: string, socket: Socket)
    requires NoEmptyLists(m)
    ensures socket !in Sockets(m, key) ==> Left(Joined(m, key, socket), key, socket) == m
    ensures multiset(Sockets(Left(Joined(m, key, socket), key, socket), key)) == multiset(Sockets(m, key))
  {
    if socket !in Sockets(m, key) {
      JoinThenLeaveFresh(m, key, socket);
    }
  }

  lemma JoinThenLeaveFresh(m: Registry, key: string, socket: Socket)
    requires NoEmptyLists(m)
    requires socket !in Sockets(m, key)
    ensures Left(Joined(m, key, socket), key, socket) == m
  {
    var s := Sockets(m, key);
    RemoveLast(s, socket);
    if key in m {
      RestoreList(m, key, s, socket);
    } else {
      RestoreAbsent(m, key, socket);
    }
  }

  /** Leaving a channel that had other sockets puts its list back. */
  lemma RestoreList(m: Registry, key: string, s: seq<Socket>, socket: Socket)
    requires key in m && m[key] == s && s != []
    requires Removed(s + [socket], socket) == s
    ensures Left(m[key := s + [socket]], key, socket) == m
  {
    assert m[key := s + [socket]][key := s] == m;
  }

  /** Leaving a channel the socket created deletes it again. */
  lemma RestoreAbsent(m: Registry, key: string, socket: Socket)
    requires key !in m
    requires Removed([] + [socket], socket) == []
    ensures Left(m[key := [] + [socket]], key, socket) == m
  {
    assert m[key := [] + [socket]] - {key} == m;
  }

  /** Creating the list when absent and then appending to it is joining. */
  lemma AppendInPlace(m: Registry, created: Registry, appended: Registry, key: string, socket: Socket)
    requires created == if key in m then m else m[key := []]
    requires key in created && appended == created[key := created[key] + [socket]]
    ensures appended == Joined(m, key, socket)
  {
    if key !in m {
      assert [] + [socket] == [socket];
    }
  }

  /** `ConnectionManager`: the two registries that `connect` and `disconnect` update in place. */
  class Manager {
    var workspaceConnections: Registry
    var userConnections: Registry

    predicate Valid()
      reads this
    {
      NoEmptyLists(workspaceConnections) && NoEmptyLists(userConnections)
    }

    constructor ()
      ensures Valid()
      ensures workspaceConnections == map[] && userConnections == map[]
    {
      workspaceConnections := map[];
      userConnections := map[];
    }

    /** `connect`: a `'workspace'` or `'user'` socket joins that registry; any other kind
     *  changes nothing. */
    method Connect(wsType: string, itemId: string, socket: Socket)
      requires Valid()
      modifies this
      ensures Valid()
      ensures wsType == "workspace" ==>
        workspaceConnections == Joined(old(workspaceConnections), itemId, socket)
        && userConnections == old(userConnections)
      ensures wsType == "user" ==>
        userConnections == Joined(old(userConnections), itemId, socket)
        && workspaceConnections == old(workspaceConnections)
      ensures wsType != "workspace" && wsType != "user" ==>
        workspaceConnections == old(workspaceConnections) && userConnections == old(userConnections)
    {
      if wsType == "workspace" {
        ghost var before := workspaceConnections;
        if itemId !in workspaceConnections {
          workspaceConnections := workspaceConnections[itemId := []];
        }
        ghost var created := workspaceConnections;
        workspaceConnections := workspaceConnections[itemId := workspaceConnections[itemId] + [socket]];
        AppendInPlace(before, created, workspaceConnections, itemId, socket);
      } else if wsType == "user" {
        ghost var before := userConnections;
        if itemId !in userConnections {
          userConnections := userConnections[itemId := []];
        }
        ghost var created := userConnections;
        userConnections := userConnections[itemId := userConnections[itemId] + [socket]];
        AppendInPlace(before, created, userConnections, itemId, socket);
      }
    }

    /** `disconnect`: the socket leaves the workspace registry for `'workspace'` and the user
     *  registry for every other kind. A socket not on the list (the `ValueError` the handler
     *  swallows) changes nothing. */
    method Disconnect(wsType: string, itemId: string, socket: Socket)
      requires Valid()
      modifies this
      ensures Valid()
      ensures wsType == "workspace" ==>
        workspaceConnections == Left(old(workspaceConnections), itemId, socket)
        && userConnections == old(userConnections)
      ensures wsType != "workspace" ==>
        userConnections == Left(old(userConnections), itemId, socket)
        && workspaceConnections == old(workspaceConnections)
    {
      var connections := if wsType == "workspace" then workspaceConnections else userConnections;
      if itemId in connections && socket in connections[itemId] {
        var list := Removed(connections[itemId], socket);
        if list == [] {
          connections := connections - {itemId};
        } else {
          connections := connections[itemId := list];
        }
      }
      if wsType == "workspace" {
        workspaceConnections := connections;
      } else {
        userConnections := connections;
      }
    }
  }
}
