/**
 * The socket.io adapter's room map (room id -> ids of the sockets joined to it),
 * as the in-memory adapter keeps it: joining adds a socket to a room, and a room
 * whose last socket leaves is deleted, so no entry is ever empty.
 */
module Rooms {
  /**
   * A socket.io identifier: socket ids, room ids and user ids are all strings
   * in one namespace (a socket's own room and a user's self-room are named by
   * those ids), compared only for equality.
   */
  type Name(==, !new)
  type SocketId = Name
  type RoomId = Name
  type RoomMap = map<RoomId, set<SocketId>>

  /** The adapter never keeps an empty room. */
  ghost predicate Pruned(rm: RoomMap)
  {
    forall r | r in rm :: rm[r] != {}
  }

  /** `adapter.rooms.get(r)`, with a missing room read as the empty set. */
  function Members(rm: RoomMap, r: RoomId): set<SocketId>
  {
    if r in rm then rm[r] else {}
  }

  /** `socket.join(r)`. */
  function Join(rm: RoomMap, r: RoomId, s: SocketId): RoomMap
  {
    rm[r := Members(rm, r) + {s}]
  }

  /** `rs.forEach(room => socket.join(room))`, one join after the other. */
  function JoinAll(rm: RoomMap, rs: seq<RoomId>, s: SocketId): RoomMap
    decreases |rs|
  {
    if rs == [] then rm
    else Join(JoinAll(rm, rs[..|rs| - 1], s), rs[|rs| - 1], s)
  }

  /** What leaving every room does when a socket disconnects (in-memory adapter `delAll`). */
  function Leave(rm: RoomMap, s: SocketId): RoomMap
  {
    map r | r in rm && rm[r] - {s} != {} :: rm[r] - {s}
  }

  /** Joining adds the socket to that one room and changes no other room; the adapter still keeps no empty room. */
  lemma JoinMembers(rm: RoomMap, r: RoomId, s: SocketId)
    ensures forall x :: Members(Join(rm, r, s), x) == if x == r then Members(rm, x) + {s} else Members(rm, x)
    ensures Pruned(rm) ==> Pruned(Join(rm, r, s))
  {
  }

  /** Joining a list adds the socket to exactly the rooms of the list, whatever their order or repetitions. */
  lemma {:induction false} JoinAllMembers(rm: RoomMap, rs: seq<RoomId>, s: SocketId)
    ensures forall x :: Members(JoinAll(rm, rs, s), x) == if x in rs then Members(rm, x) + {s} else Members(rm, x)
    ensures Pruned(rm) ==> Pruned(JoinAll(rm, rs, s))
    decreases |rs|
  {
    if rs != [] {
      var init := rs[..|rs| - 1];
      JoinAllMembers(rm, init, s);
      JoinMembers(JoinAll(rm, init, s), rs[|rs| - 1], s);
      assert forall x :: x in rs <==> x in init || x == rs[|rs| - 1] by {
        assert rs == init + [rs[|rs| - 1]];
      }
    }
  }

  /** Leaving takes the socket out of every room, deletes the rooms it leaves empty and touches nothing else. */
  lemma LeaveMembers(rm: RoomMap, s: SocketId)
    ensures forall x :: Members(Leave(rm, s), x) == Members(rm, x) - {s}
    ensures Pruned(Leave(rm, s))
  {
  }

  /** A pruned room map is determined by the members it gives each room. */
  lemma SameMembersSameMap(a: RoomMap, b: RoomMap)
    requires Pruned(a) && Pruned(b)
    requires forall r :: Members(a, r) == Members(b, r)
    ensures a == b
  {
    forall r | r in a ensures r in b && a[r] == b[r] {
      assert Members(a, r) == Members(b, r);
    }
    forall r | r in b ensures r in a {
      assert Members(a, r) == Members(b, r);
    }
  }

  /** Leaving undoes any joins of the same socket: the rooms end up as if it had never joined them. */
  lemma LeaveAfterJoinAll(rm: RoomMap, rs: seq<RoomId>, s: SocketId)
    ensures Leave(JoinAll(rm, rs, s), s) == Leave(rm, s)
  {
    JoinAllMembers(rm, rs, s);
    LeaveMembers(JoinAll(rm, rs, s), s);
    LeaveMembers(rm, s);
    SameMembersSameMap(Leave(JoinAll(rm, rs, s), s), Leave(rm, s));
  }

  /** After joining every room of `rs` and then `u`, the socket sits in each of them. */
  lemma JoinAllThenJoin(rm: RoomMap, rs: seq<RoomId>, s: SocketId, u: RoomId)
    ensures forall k :: 0 <= k < |rs| ==> s in Members(Join(JoinAll(rm, rs, s), u, s), rs[k])
    ensures s in Members(Join(JoinAll(rm, rs, s), u, s), u)
  {
  }
}
