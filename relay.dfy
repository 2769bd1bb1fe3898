/**
 * The socket.io connection handlers of the backend, as one server object over
 * the adapter's room map. Every handler runs to completion before the next one
 * starts (Node runs them one at a time), so each is one method. What sockets
 * receive is recorded in `log`, one entry per `emit` with the set of sockets it
 * reaches, resolved from the room map at the moment of the emit; the calls
 * `setStatus` and `saveMessage` are recorded in `calls`.
 */
module Relay {
  import opened Wrappers
  import opened Rooms
  import opened ChangeStream

  type UserId = Name
  /** A JSON value carried through unchanged (signalling data, message content, a date). */
  type Payload = string

  /**
   * `socket.handshake.headers.userId`, set by the authentication middleware:
   * absent, not a string, the empty string, or a non-empty string naming a user.
   */
  datatype Header = Missing | NonString | EmptyText | Text(value: UserId)

  /** `!userId || typeof userId !== "string"` rejects a missing header, a non-string and the empty string. */
  predicate ValidUser(h: Header)
  {
    h.Text?
  }

  const INVALID_USER: string := "Invalid user"
  const INTERNAL_ERROR: string := "Internal Server Error"

  datatype SignalKind = OfferSignal | AnswerSignal | IceCandidateSignal

  /** The events the server emits, with their payloads. */
  datatype Event =
    | NewPeer(peer: SocketId)
    | Signal(kind: SignalKind, from: SocketId, data: Payload)
    | Onl(user: UserId)
    | Off(user: UserId)
    | Msg(sender: UserId, room: RoomId, content: Payload, date: Payload)
    | Call(caller: UserId, meeting: RoomId, date: Payload)
    | RoomChanged
    | InvitationChanged
    | Error(message: string)

  /** One `emit`: the sockets it reaches and what they receive. */
  datatype Emit = Emit(to: set<SocketId>, event: Event)

  /** The recorded store calls: `setStatus` of the users store and `saveMessage`. */
  datatype StoreCall = SetStatus(user: UserId, online: bool) | SaveMessage(user: UserId, room: RoomId, content: Payload, date: Payload)

  /** What the `join_chat` closure captured when it registered `msg`, `call` and `disconnect`: the user and its room list. */
  datatype ChatBinding = ChatBinding(user: UserId, rooms: seq<RoomId>)

  /** `rs.forEach(room => to(room).emit(ev))`: one emit per room, in order, each to the room's members but `except`. */
  function Fanout(rm: RoomMap, rs: seq<RoomId>, except: set<SocketId>, ev: Event): (out: seq<Emit>)
    ensures |out| == |rs|
    ensures forall k :: 0 <= k < |rs| ==> out[k] == Emit(Members(rm, rs[k]) - except, ev)
    decreases |rs|
  {
    if rs == [] then []
    else Fanout(rm, rs[..|rs| - 1], except, ev) + [Emit(Members(rm, rs[|rs| - 1]) - except, ev)]
  }

  /**
   * The sockets a `socket.to(x)` of sender `s` leaves out: socket.io excludes
   * the room named by the sender's id, that is `s` itself and any socket that
   * has joined a room of that name.
   */
  function SenderRoom(rm: RoomMap, s: SocketId): set<SocketId>
  {
    Members(rm, s)
  }

  /** After `s` has left every room (`rm`), its chat `disconnect` handler finds the user's self-room empty. */
  predicate GoesOffline(rm: RoomMap, chat: map<SocketId, ChatBinding>, s: SocketId)
  {
    s in chat && Members(rm, chat[s].user) == {}
  }

  /** The `off` emits of the chat `disconnect` handler of `s`. */
  function OffEmits(rm: RoomMap, chat: map<SocketId, ChatBinding>, s: SocketId): seq<Emit>
  {
    if GoesOffline(rm, chat, s) then Fanout(rm, chat[s].rooms, {}, Off(chat[s].user)) else []
  }

  /** The store call of the chat `disconnect` handler of `s`. */
  function OffCalls(rm: RoomMap, chat: map<SocketId, ChatBinding>, s: SocketId): seq<StoreCall>
  {
    if GoesOffline(rm, chat, s) then [SetStatus(chat[s].user, false)] else []
  }

  /**
   * The server-side tables the handlers work on: the adapter's rooms, the live
   * sockets, each live socket's handshake user header, the sockets that have
   * registered the signalling handlers (after `join_meet`) and the sockets
   * that have registered `msg`, `call` and the chat `disconnect` handler
   * (after a valid `join_chat`), with what that closure captured.
   */
  datatype Hub = Hub(rooms: RoomMap, connected: set<SocketId>, headers: map<SocketId, Header>,
                     meetJoined: set<SocketId>, chat: map<SocketId, ChatBinding>)

  /**
   * What always holds of the tables: rooms hold only live sockets and are
   * never empty, every socket sits in the room named by its own id (socket.io
   * puts it there), and a chat socket is bound to its own header's user and
   * sits in that user's self-room.
   */
  ghost predicate Consistent(h: Hub)
  {
    && Pruned(h.rooms)
    && (forall r, t | t in Members(h.rooms, r) :: t in h.connected)
    && (forall t | t in h.connected :: t in Members(h.rooms, t))
    && h.headers.Keys == h.connected
    && h.meetJoined <= h.connected
    && h.chat.Keys <= h.connected
    && (forall t | t in h.chat :: h.headers[t] == Text(h.chat[t].user) && t in Members(h.rooms, h.chat[t].user))
  }

  /** A new socket with handshake header `hd`: live, in its own room, nothing registered. */
  function Attach(h: Hub, s: SocketId, hd: Header): Hub
  {
    h.(rooms := Join(h.rooms, s, s), connected := h.connected + {s}, headers := h.headers[s := hd])
  }

  /** A socket that has gone: out of every room and every per-socket table. */
  function Detach(h: Hub, s: SocketId): Hub
  {
    Hub(Leave(h.rooms, s), h.connected - {s}, h.headers - {s}, h.meetJoined - {s}, h.chat - {s})
  }

  lemma AttachKeepsConsistent(h: Hub, s: SocketId, hd: Header)
    requires Consistent(h) && s !in h.connected
    ensures Consistent(Attach(h, s, hd))
  {
    var h' := Attach(h, s, hd);
    JoinMembers(h.rooms, s, s);
    forall r, t | t in Members(h'.rooms, r) ensures t in h'.connected {
      assert t in Members(h.rooms, r) || t == s;
    }
    forall t | t in h'.connected ensures t in Members(h'.rooms, t) {
      assert t == s || t in Members(h.rooms, t);
    }
    forall t | t in h'.chat ensures t in Members(h'.rooms, h'.chat[t].user) && h'.headers[t] == h.headers[t] {
      assert t in Members(h.rooms, h.chat[t].user);
    }
  }

  lemma DetachKeepsConsistent(h: Hub, s: SocketId)
    requires Consistent(h)
    ensures Consistent(Detach(h, s))
  {
    var h' := Detach(h, s);
    LeaveMembers(h.rooms, s);
    forall r, t | t in Members(h'.rooms, r) ensures t in h'.connected {
      assert t in Members(h.rooms, r);
    }
    forall t | t in h'.connected ensures t in Members(h'.rooms, t) {
      assert t in Members(h.rooms, t);
    }
    forall t | t in h'.chat ensures t in Members(h'.rooms, h'.chat[t].user) {
      assert t in Members(h.rooms, h.chat[t].user);
    }
  }

  /** A live socket joining a room keeps the tables consistent. */
  lemma JoinKeepsConsistent(h: Hub, r: RoomId, s: SocketId)
    requires Consistent(h) && s in h.connected
    ensures Consistent(h.(rooms := Join(h.rooms, r, s)))
  {
    var h' := h.(rooms := Join(h.rooms, r, s));
    JoinMembers(h.rooms, r, s);
    forall x, t | t in Members(h'.rooms, x) ensures t in h'.connected {
      assert t in Members(h.rooms, x) || t == s;
    }
    forall t | t in h'.connected ensures t in Members(h'.rooms, t) {
      assert t in Members(h.rooms, t);
    }
    forall t | t in h'.chat ensures t in Members(h'.rooms, h'.chat[t].user) {
      assert t in Members(h.rooms, h.chat[t].user);
    }
  }

  /** So does joining a list of rooms, one after the other. */
  lemma {:induction false} JoinAllKeepsConsistent(h: Hub, rs: seq<RoomId>, s: SocketId)
    requires Consistent(h) && s in h.connected
    ensures Consistent(h.(rooms := JoinAll(h.rooms, rs, s)))
    decreases |rs|
  {
    if rs != [] {
      var init := rs[..|rs| - 1];
      JoinAllKeepsConsistent(h, init, s);
      JoinKeepsConsistent(h.(rooms := JoinAll(h.rooms, init, s)), rs[|rs| - 1], s);
    }
  }

  /** The chat handlers of `s` are registered for user `u` once `s` sits in the self-room `u`. */
  lemma BindKeepsConsistent(h: Hub, s: SocketId, b: ChatBinding)
    requires Consistent(h) && s in h.connected
    requires h.headers[s] == Text(b.user) && s in Members(h.rooms, b.user)
    ensures Consistent(h.(chat := h.chat[s := b]))
  {
  }

  /**
   * The tables after a completed `join_chat` of `s` for user `u` with room
   * list `rs`: `s` has joined every room of `rs` and then the self-room
   * `u`, and the chat handlers are bound unless a previous
   * `join_chat` bound them already.
   */
  function Enter(h: Hub, s: SocketId, u: UserId, rs: seq<RoomId>): Hub
  {
    h.(rooms := Join(JoinAll(h.rooms, rs, s), u, s),
       chat := if s in h.chat then h.chat else h.chat[s := ChatBinding(u, rs)])
  }

  /** A completed `join_chat` keeps the tables consistent and leaves the socket in every room of its list and in its user's self-room. */
  lemma EnterKeepsConsistent(h: Hub, s: SocketId, u: UserId, rs: seq<RoomId>)
    requires Consistent(h) && s in h.connected && h.headers[s] == Text(u)
    ensures Consistent(Enter(h, s, u, rs))
    ensures forall k :: 0 <= k < |rs| ==> s in Members(Enter(h, s, u, rs).rooms, rs[k])
    ensures s in Members(Enter(h, s, u, rs).rooms, u)
  {
    var entered := h.(rooms := JoinAll(h.rooms, rs, s));
    JoinAllKeepsConsistent(h, rs, s);
    var joined := entered.(rooms := Join(entered.rooms, u, s));
    JoinKeepsConsistent(entered, u, s);
    JoinAllThenJoin(h.rooms, rs, s, u);
    if s !in h.chat {
      BindKeepsConsistent(joined, s, ChatBinding(u, rs));
    }
  }

  /**
   * A user with a chat socket already bound never gets `onl` again: whatever
   * rooms a further socket of it joins, the self-room is not empty when the
   * presence check runs.
   */
  lemma SecondSocketStaysOnline(h: Hub, t: SocketId, s: SocketId, rs: seq<RoomId>)
    requires Consistent(h) && t in h.chat
    ensures Members(JoinAll(h.rooms, rs, s), h.chat[t].user) != {}
  {
  }

  /**
   * The chat `disconnect` handler of `s` finds its user's self-room empty
   * exactly when `s` was the only socket in it: `off` goes out at the last
   * socket of the user, never at an earlier one.
   */
  lemma OfflineAtLastSocket(h: Hub, s: SocketId)
    requires Consistent(h) && s in h.chat
    ensures GoesOffline(Leave(h.rooms, s), h.chat, s) <==> Members(h.rooms, h.chat[s].user) == {s}
  {
  }

  /**
   * The `onl` fan-out of `join_chat` never reaches the joining socket, nor
   * any socket that has joined the room named by its id.
   */
  lemma OnlSkipsSenderRoom(h: Hub, s: SocketId, u: UserId, rs: seq<RoomId>)
    requires Consistent(h) && s in h.connected
    ensures var joined := JoinAll(h.rooms, rs, s);
      forall k, t :: 0 <= k < |rs| && t in Fanout(joined, rs, SenderRoom(joined, s), Onl(u))[k].to ==>
        t != s && t !in Members(h.rooms, s)
  {
    JoinAllMembers(h.rooms, rs, s);
  }

  /** The `forEach` that emits to each room of a list: the emits, in order. */
  method EmitToEach(rm: RoomMap, rs: seq<RoomId>, except: set<SocketId>, ev: Event) returns (out: seq<Emit>)
    ensures out == Fanout(rm, rs, except, ev)
  {
    out := [];
    var i := 0;
    while i < |rs|
      invariant 0 <= i <= |rs|
      invariant out == Fanout(rm, rs[..i], except, ev)
    {
      out := out + [Emit(Members(rm, rs[i]) - except, ev)];
      i := i + 1;
      assert rs[..i][..i - 1] == rs[..i - 1];
    }
    assert rs[..|rs|] == rs;
  }

  /** The `forEach` that joins each room of a list. */
  method JoinEach(rm: RoomMap, rs: seq<RoomId>, s: SocketId) returns (rm': RoomMap)
    ensures rm' == JoinAll(rm, rs, s)
  {
    rm' := rm;
    var i := 0;
    while i < |rs|
      invariant 0 <= i <= |rs|
      invariant rm' == JoinAll(rm, rs[..i], s)
    {
      rm' := Join(rm', rs[i], s);
      i := i + 1;
      assert rs[..i][..i - 1] == rs[..i - 1];
    }
    assert rs[..|rs|] == rs;
  }


  class Server {
    /** The rooms and the per-socket tables. */
    var hub: Hub
    /** Every emit so far, oldest first. */
    var log: seq<Emit>
    /** Every store call so far, oldest first. */
    var calls: seq<StoreCall>

    ghost predicate Valid()
      reads this`hub
    {
      Consistent(hub)
    }

    /** `s` is gone: out of every room and every per-socket table. */
    twostate predicate Closed(s: SocketId)
      reads this
    {
      hub == Detach(old(hub), s)
    }

    constructor ()
      ensures Valid()
      ensures hub == Hub(map[], {}, map[], {}, map[])
      ensures log == [] && calls == []
    {
      hub := Hub(map[], {}, map[], {}, map[]);
      log, calls := [], [];
    }

    /** A new socket connects (after the middleware): it joins its own room and no handler but `join_meet` and `join_chat` is registered. */
    method Connect(s: SocketId, hd: Header)
      requires Valid() && s !in hub.connected
      modifies this`hub
      ensures Valid()
      ensures hub == Attach(old(hub), s, hd)
    {
      AttachKeepsConsistent(hub, s, hd);
      hub := Attach(hub, s, hd);
    }

    /** `join_meet(uuid)`: join the meeting room, tell the sockets already in it, register the signalling handlers. */
    method OnJoinMeet(s: SocketId, uuid: RoomId)
      requires Valid() && s in hub.connected
      modifies this`hub, this`log
      ensures Valid()
      ensures hub == old(hub).(rooms := Join(old(hub).rooms, uuid, s), meetJoined := old(hub).meetJoined + {s})
      ensures s in Members(hub.rooms, uuid)
      ensures log == old(log) + [Emit(Members(hub.rooms, uuid) - SenderRoom(hub.rooms, s), NewPeer(s))]
      ensures log[|log| - 1].to <= Members(old(hub).rooms, uuid) - {s}
    {
      JoinKeepsConsistent(hub, uuid, s);
      var rooms := Join(hub.rooms, uuid, s);
      JoinMembers(hub.rooms, uuid, s);
      log := log + [Emit(Members(rooms, uuid) - SenderRoom(rooms, s), NewPeer(s))];
      hub := hub.(rooms := rooms, meetJoined := hub.meetJoined + {s});
    }

    /**
     * `offer`, `answer`, `ice_candidate` with `[target, data]`: `[s, data]` to
     * the room named by the target id, minus the sender's room, so never back
     * to `s`; a target no longer connected itself receives nothing. Before
     * `join_meet` there is no handler.
     */
    method OnSignal(s: SocketId, kind: SignalKind, target: SocketId, data: Payload)
      requires Valid() && s in hub.connected
      modifies this`log
      ensures s in hub.meetJoined ==>
        && log == old(log) + [Emit(Members(hub.rooms, target) - SenderRoom(hub.rooms, s), Signal(kind, s, data))]
        && log[|log| - 1].to <= Members(hub.rooms, target) - {s}
      ensures s !in hub.meetJoined ==> log == old(log)
    {
      if s in hub.meetJoined {
        log := log + [Emit(Members(hub.rooms, target) - SenderRoom(hub.rooms, s), Signal(kind, s, data))];
      }
    }

    /**
     * `join_chat`, given what `getRooms` yields (`None` when it throws or
     * finds no user, which also lands in the `catch`) and whether
     * `setStatus(userId, true)` succeeds, if it is called.
     */
    method OnJoinChat(s: SocketId, fetched: Option<seq<RoomId>>, statusOk: bool)
      requires Valid() && s in hub.connected
      modifies this
      ensures Valid()
      // an invalid user: `error`, then disconnect; no room joined, no store call
      ensures !ValidUser(old(hub).headers[s]) ==>
        && Closed(s)
        && log == old(log) + [Emit({s}, Error(INVALID_USER))]
        && calls == old(calls)
      // getRooms failed: `error`, then disconnect
      ensures ValidUser(old(hub).headers[s]) && fetched.None? ==>
        && Closed(s)
        && log == old(log) + [Emit({s}, Error(INTERNAL_ERROR))] + OffEmits(hub.rooms, old(hub).chat, s)
        && calls == old(calls) + OffCalls(hub.rooms, old(hub).chat, s)
      ensures ValidUser(old(hub).headers[s]) && fetched.Some? ==>
        var u := old(hub).headers[s].value;
        var rs := fetched.value;
        if Members(JoinAll(old(hub).rooms, rs, s), u) == {} && !statusOk then
          // setStatus failed: `error`, then disconnect; no `onl`
          && Closed(s)
          && log == old(log) + [Emit({s}, Error(INTERNAL_ERROR))]
          && calls == old(calls) + [SetStatus(u, true)]
        else
          JoinedChat(s, u, rs)
    {
      var h := hub.headers[s];
      if !ValidUser(h) {
        log := log + [Emit({s}, Error(INVALID_USER))];
        OnDisconnect(s);
        return;
      }
      if fetched.None? {
        log := log + [Emit({s}, Error(INTERNAL_ERROR))];
        OnDisconnect(s);
        return;
      }
      var joined := JoinEach(hub.rooms, fetched.value, s);
      if Members(joined, h.value) == {} && !statusOk {
        RejectJoin(s, h.value, fetched.value, joined);
      } else {
        CompleteJoin(s, h.value, fetched.value, joined);
      }
    }

    /**
     * The presence check of `join_chat` finds the self-room `u` empty after joining `rs`, so
     * `setStatus(u, true)` is called; it fails, and the `catch` sends `error`
     * and disconnects the socket, which takes it out of the rooms it just joined.
     */
    method RejectJoin(s: SocketId, u: UserId, rs: seq<RoomId>, joined: RoomMap)
      requires Valid() && s in hub.connected && hub.headers[s] == Text(u)
      requires joined == JoinAll(hub.rooms, rs, s) && Members(joined, u) == {}
      modifies this
      ensures Valid()
      ensures Closed(s)
      ensures log == old(log) + [Emit({s}, Error(INTERNAL_ERROR))]
      ensures calls == old(calls) + [SetStatus(u, true)]
    {
      JoinAllKeepsConsistent(hub, rs, s);
      assert s !in hub.chat;
      hub := hub.(rooms := joined);
      calls := calls + [SetStatus(u, true)];
      log := log + [Emit({s}, Error(INTERNAL_ERROR))];
      OnDisconnect(s);
      LeaveAfterJoinAll(old(hub).rooms, rs, s);
    }

    /**
     * A completed `join_chat` of `s` for user `u` with room list `rs`: `s` is
     * in every room of `rs` and in the self-room `u`; when that self-room was
     * empty before, `onl(u)` has gone to every room of `rs` minus the sender's
     * room (so not back to `s`)
     * and `setStatus(u, true)` was called, and otherwise nothing was emitted
     * and nothing called; the chat handlers are registered (once), and no
     * other table changes.
     */
    twostate predicate JoinedChat(s: SocketId, u: UserId, rs: seq<RoomId>)
      reads this
    {
      // the user had no socket in its self-room before this one
      var first := Members(JoinAll(old(hub).rooms, rs, s), u) == {};
      && hub == Enter(old(hub), s, u, rs)
      && (forall k :: 0 <= k < |rs| ==> s in Members(hub.rooms, rs[k]))
      && s in Members(hub.rooms, u)
      && log == old(log) + (if first then Fanout(JoinAll(old(hub).rooms, rs, s), rs, SenderRoom(JoinAll(old(hub).rooms, rs, s), s), Onl(u)) else [])
      && calls == old(calls) + (if first then [SetStatus(u, true)] else [])
    }

    /** The successful end of `join_chat`, from the presence check on: `onl` when the user's self-room is empty, then join it and register the handlers. */
    method CompleteJoin(s: SocketId, u: UserId, rs: seq<RoomId>, joined: RoomMap)
      requires Valid() && s in hub.connected && hub.headers[s] == Text(u)
      requires joined == JoinAll(hub.rooms, rs, s)
      modifies this`hub, this`log, this`calls
      ensures Valid()
      ensures JoinedChat(s, u, rs)
    {
      EnterKeepsConsistent(hub, s, u, rs);
      AnnounceOnline(s, u, rs, joined);
      hub := Enter(hub, s, u, rs);
    }

    /**
     * The presence check of `join_chat` and its branch: when the self-room `u`
     * of `rooms` has no socket yet, `setStatus(u, true)` and `onl(u)` to each
     * room of `rs` minus the sender's room.
     */
    method AnnounceOnline(s: SocketId, u: UserId, rs: seq<RoomId>, rooms: RoomMap)
      modifies this`log, this`calls
      ensures Members(rooms, u) == {} ==>
        && calls == old(calls) + [SetStatus(u, true)]
        && log == old(log) + Fanout(rooms, rs, SenderRoom(rooms, s), Onl(u))
      ensures Members(rooms, u) != {} ==> log == old(log) && calls == old(calls)
    {
      if Members(rooms, u) == {} {
        calls := calls + [SetStatus(u, true)];
        var onl := EmitToEach(rooms, rs, SenderRoom(rooms, s), Onl(u));
        log := log + onl;
      }
    }

    /** `msg [roomId, content, date]`: `[userId, roomId, content, date]` to every socket in the room, the sender included, then `saveMessage`. */
    method OnMsg(s: SocketId, roomId: RoomId, content: Payload, date: Payload)
      requires Valid() && s in hub.connected
      modifies this`log, this`calls
      ensures s in hub.chat ==>
        && log == old(log) + [Emit(Members(hub.rooms, roomId), Msg(hub.chat[s].user, roomId, content, date))]
        && calls == old(calls) + [SaveMessage(hub.chat[s].user, roomId, content, date)]
      ensures s !in hub.chat ==> log == old(log) && calls == old(calls)
    {
      if s in hub.chat {
        var u := hub.chat[s].user;
        log := log + [Emit(Members(hub.rooms, roomId), Msg(u, roomId, content, date))];
        calls := calls + [SaveMessage(u, roomId, content, date)];
      }
    }

    /** `call [roomId, date]` with the fresh meeting id: `[userId, meeting, date]` to every socket in the room; nobody joins anything. */
    method OnCall(s: SocketId, roomId: RoomId, date: Payload, meeting: RoomId)
      requires Valid() && s in hub.connected
      modifies this`log
      ensures s in hub.chat ==> log == old(log) + [Emit(Members(hub.rooms, roomId), Call(hub.chat[s].user, meeting, date))]
      ensures s !in hub.chat ==> log == old(log)
    {
      if s in hub.chat {
        log := log + [Emit(Members(hub.rooms, roomId), Call(hub.chat[s].user, meeting, date))];
      }
    }

    /**
     * The socket disconnects (or is disconnected): socket.io takes it out of
     * every room first, then runs its `disconnect` handlers. The chat handler
     * returns when the user's self-room still has a socket; otherwise it
     * emits `off` to every room of the user's list and calls `setStatus(userId, false)`.
     */
    method OnDisconnect(s: SocketId)
      requires Valid() && s in hub.connected
      modifies this
      ensures Valid()
      ensures Closed(s)
      ensures GoesOffline(hub.rooms, old(hub).chat, s) ==>
        && log == old(log) + Fanout(hub.rooms, old(hub).chat[s].rooms, {}, Off(old(hub).chat[s].user))
        && calls == old(calls) + [SetStatus(old(hub).chat[s].user, false)]
      ensures !GoesOffline(hub.rooms, old(hub).chat, s) ==> log == old(log) && calls == old(calls)
      ensures log == old(log) + OffEmits(hub.rooms, old(hub).chat, s) && calls == old(calls) + OffCalls(hub.rooms, old(hub).chat, s)
    {
      DetachKeepsConsistent(hub, s);
      var chat := hub.chat;
      hub := Detach(hub, s);
      if s in chat && Members(hub.rooms, chat[s].user) == {} {
        var b := chat[s];
        var off := EmitToEach(hub.rooms, b.rooms, {}, Off(b.user));
        log := log + off;
        calls := calls + [SetStatus(b.user, false)];
      }
    }

    /** `handleRoomsChange`: `room` to the changed room's sockets when the participants changed; nothing else changes. */
    method OnRoomsChange(change: ChangeEvent)
      modifies this`log
      ensures log == old(log) + match ChangeTarget(change, PARTICIPANTS)
        case None => []
        case Some(r) => [Emit(Members(hub.rooms, r), RoomChanged)]
    {
      var t := ChangeTarget(change, PARTICIPANTS);
      if t.Some? {
        log := log + [Emit(Members(hub.rooms, t.value), RoomChanged)];
      }
    }

    /** `handleInvitationsChange`: `inv` to the user's self-room when its invitations changed; nothing else changes. */
    method OnInvitationsChange(change: ChangeEvent)
      modifies this`log
      ensures log == old(log) + match ChangeTarget(change, INVITATIONS)
        case None => []
        case Some(u) => [Emit(Members(hub.rooms, u), InvitationChanged)]
    {
      var t := ChangeTarget(change, INVITATIONS);
      if t.Some? {
        log := log + [Emit(Members(hub.rooms, t.value), InvitationChanged)];
      }
    }
  }
}
