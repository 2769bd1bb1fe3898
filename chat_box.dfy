/**
 * The chat box's message list: loading the next older page when the top
 * sensor becomes visible, and taking in a message pushed by the server.
 * `conversationLength` (the total number of messages the server holds for
 * the room) is carried as explicit state.
 */
module ChatBox {
  import opened Wrappers

  datatype Message = Message(sender: string, content: string, timestamp: string)

  const DEFAULT_MESSAGES_LIMIT: int := 30

  /** The query of one history request: at most `limit` messages after skipping the `skip` oldest. */
  datatype Window = Window(limit: int, skip: int)

  /**
   * The window of the next older page when `loaded` of the room's
   * `conversationLength` messages are shown: the page ends exactly where the
   * loaded messages begin, holds at most 30, and is a full 30 unless it
   * reaches back to the first message.
   */
  function PageWindow(loaded: int, conversationLength: int): (w: Window)
    requires 0 < loaded < conversationLength
    ensures 0 <= w.skip
    ensures 0 < w.limit <= DEFAULT_MESSAGES_LIMIT
    ensures w.skip + w.limit == conversationLength - loaded
    ensures w.skip == 0 || w.limit == DEFAULT_MESSAGES_LIMIT
  {
    var missing := conversationLength - loaded;
    if missing < DEFAULT_MESSAGES_LIMIT then Window(missing, 0)
    else Window(DEFAULT_MESSAGES_LIMIT, missing - DEFAULT_MESSAGES_LIMIT)
  }

  /**
   * `handleGetMoreMessages(isVisible)` up to the request: nothing when the
   * sensor is hidden, the list is null or empty, or everything is loaded;
   * otherwise the window, computed as the handler does, by shrinking the
   * default limit when the skip would go negative.
   */
  method GetMoreMessages(isVisible: bool, messages: Option<seq<Message>>, conversationLength: int) returns (request: Option<Window>)
    ensures request.None? <==>
      !isVisible || messages.None? || |messages.value| == 0 || |messages.value| >= conversationLength
    ensures request.Some? ==> request.value == PageWindow(|messages.value|, conversationLength)
  {
    if !isVisible {
      return None;
    }
    if messages.None? || |messages.value| == 0 {
      return None;
    }
    if |messages.value| >= conversationLength {
      return None;
    }
    var messagesLimit := DEFAULT_MESSAGES_LIMIT;
    var skip := conversationLength - |messages.value| - messagesLimit;
    if skip < 0 {
      messagesLimit := messagesLimit + skip;
      skip := 0;
    }
    return Some(Window(messagesLimit, skip));
  }

  /** The `setMessages` updater of a fetched page: the page goes in front of the messages already shown, which keep their order. */
  function PrependPage(prev: Option<seq<Message>>, page: seq<Message>): (r: seq<Message>)
    ensures prev.None? ==> r == page
    ensures prev.Some? ==> |r| == |page| + |prev.value| && r[..|page|] == page && r[|page|..] == prev.value
  {
    match prev
    case None => page
    case Some(p) => page + p
  }

  /**
   * A page as the history route answers it. A `conversationLength` of 0
   * stands for any falsy value and a `meetingUuid` of `None` for a missing or
   * empty one.
   */
  datatype RoomPage = RoomPage(messages: seq<Message>, conversationLength: int, meetingUuid: Option<string>)

  /** The chat box's state: the message list (`null` before the first load), the conversation length, the meeting shown. */
  datatype ChatState = ChatState(messages: Option<seq<Message>>, conversationLength: int, meeting: Option<string>)

  /** What the page callback does to the state: prepend the page, take a truthy conversation length, show the meeting or clear it. */
  function ApplyPage(st: ChatState, data: RoomPage): (st': ChatState)
    ensures st'.messages == Some(PrependPage(st.messages, data.messages))
    ensures st'.conversationLength == if data.conversationLength != 0 then data.conversationLength else st.conversationLength
    ensures st'.meeting == if data.meetingUuid.Some? && data.meetingUuid.value != "" then data.meetingUuid else None
  {
    ChatState(
      Some(PrependPage(st.messages, data.messages)),
      if data.conversationLength != 0 then data.conversationLength else st.conversationLength,
      if data.meetingUuid.Some? && data.meetingUuid.value != "" then data.meetingUuid else None)
  }

  /** A message pushed by the server: `[sender, roomId, content, timestamp]`. */
  datatype Incoming = Incoming(sender: string, roomId: string, content: string, timestamp: string)

  /** `room.participants.some(participant => participant._id === sender)`. */
  function SomeParticipant(participants: seq<string>, sender: string): (b: bool)
    ensures b <==> sender in participants
  {
    if participants == [] then false
    else participants[0] == sender || SomeParticipant(participants[1..], sender)
  }

  /** The sender filter: the profile user or a participant of the room; `profile?._id` is `None` when there is no profile. */
  predicate FromMember(sender: string, profileId: Option<string>, participants: seq<string>)
  {
    profileId == Some(sender) || SomeParticipant(participants, sender)
  }

  function Shown(st: ChatState): seq<Message>
  {
    if st.messages.Some? then st.messages.value else []
  }

  /**
   * `handleReceiveMessage(msg)`: a message of another room, or from someone
   * who is neither the profile user nor a participant, changes nothing;
   * otherwise it is appended and the conversation grows by one.
   */
  function ReceiveMessage(st: ChatState, msg: Incoming, currentRoom: string, profileId: Option<string>, participants: seq<string>): (st': ChatState)
    ensures msg.roomId != currentRoom ==> st' == st
    ensures msg.roomId == currentRoom && !(profileId == Some(msg.sender) || msg.sender in participants) ==> st' == st
    ensures msg.roomId == currentRoom && (profileId == Some(msg.sender) || msg.sender in participants) ==>
      && st'.messages.Some?
      && |Shown(st')| == |Shown(st)| + 1
      && Shown(st')[..|Shown(st)|] == Shown(st)
      && Shown(st')[|Shown(st)|] == Message(msg.sender, msg.content, msg.timestamp)
      && st'.conversationLength == st.conversationLength + 1
      && st'.meeting == st.meeting
  {
    if msg.roomId != currentRoom then st
    else if !FromMember(msg.sender, profileId, participants) then st
    else
      var m := Message(msg.sender, msg.content, msg.timestamp);
      var messages := if st.messages.Some? then st.messages.value + [m] else [m];
      st.(messages := Some(messages), conversationLength := st.conversationLength + 1)
  }

  /** `a` is the newest part of `history`. */
  predicate IsSuffix(a: seq<Message>, history: seq<Message>)
  {
    |a| <= |history| && history[|history| - |a|..] == a
  }

  /** The chat box shows the newest messages of the room's history and knows its length. */
  predicate Synced(st: ChatState, history: seq<Message>)
  {
    st.conversationLength == |history| && IsSuffix(Shown(st), history)
  }

  /** What a history route serving messages oldest first answers for window `w`. */
  function Serve(history: seq<Message>, w: Window, meetingUuid: Option<string>): RoomPage
    requires 0 <= w.skip && 0 <= w.limit && w.skip + w.limit <= |history|
  {
    RoomPage(history[w.skip..w.skip + w.limit], |history|, meetingUuid)
  }

  /**
   * With a route that serves `history[skip..skip + limit]`, each page
   * continues the shown messages without a gap or an overlap: the state stays
   * in step with the history and shows `limit` more messages.
   */
  lemma PageKeepsSynced(st: ChatState, history: seq<Message>, meetingUuid: Option<string>)
    requires Synced(st, history)
    requires st.messages.Some? && 0 < |st.messages.value| < st.conversationLength
    ensures var w := PageWindow(|st.messages.value|, st.conversationLength);
      && Synced(ApplyPage(st, Serve(history, w, meetingUuid)), history)
      && |Shown(ApplyPage(st, Serve(history, w, meetingUuid)))| == |Shown(st)| + w.limit
  {
  }

  /** A message the server stored and pushed is shown at the end, so the state stays in step with the longer history. */
  lemma ReceiveKeepsSynced(st: ChatState, history: seq<Message>, msg: Incoming, currentRoom: string,
                           profileId: Option<string>, participants: seq<string>)
    requires Synced(st, history)
    requires msg.roomId == currentRoom && (profileId == Some(msg.sender) || msg.sender in participants)
    ensures Synced(ReceiveMessage(st, msg, currentRoom, profileId, participants),
                   history + [Message(msg.sender, msg.content, msg.timestamp)])
  {
  }

  /**
   * The shown messages after scrolling to the top again and again, each time
   * loading the page `PageWindow` asks for, one request at a time: each page
   * is applied before the next window is computed.
   */
  function ScrollToTop(history: seq<Message>, shown: seq<Message>): seq<Message>
    requires |shown| <= |history|
    decreases |history| - |shown|
  {
    if |shown| == 0 || |shown| == |history| then shown
    else
      var w := PageWindow(|shown|, |history|);
      ScrollToTop(history, history[w.skip..w.skip + w.limit] + shown)
  }

  /** Starting from any non-empty newest part of the history, paging up loads the whole history, in order, each message once. */
  lemma {:induction false} ScrollToTopLoadsHistory(history: seq<Message>, shown: seq<Message>)
    requires IsSuffix(shown, history) && shown != []
    ensures ScrollToTop(history, shown) == history
    decreases |history| - |shown|
  {
    if |shown| < |history| {
      var w := PageWindow(|shown|, |history|);
      var next := history[w.skip..w.skip + w.limit] + shown;
      assert history[w.skip..] == history[w.skip..w.skip + w.limit] + history[|history| - |shown|..];
      assert IsSuffix(next, history);
      ScrollToTopLoadsHistory(history, next);
    } else {
      assert history[|history| - |shown|..] == history;
    }
  }
}
