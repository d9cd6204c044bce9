/** The client-side chat hook of hooks/useChat.ts: the message list kept
    by the page, its updaters for the socket events `newMessage` and
    `messageSeen`, and the optimistic `sendMessage` whose
    acknowledgement either replaces or removes the temporary entry. */
module ChatClient {
  import opened Common

  datatype MediaKind = Image | Video | File
  datatype Media = Media(url: string, kind: MediaKind)

  /** A message as the client holds it; `id` is `_id`. */
  datatype ChatMessage = ChatMessage(
    id: string,
    conversationId: string,
    sender: string,
    text: Option<string>,
    media: Option<Media>,
    seenBy: Option<seq<Id>>,
    createdAt: int)

  predicate HasId(ms: seq<ChatMessage>, id: string) {
    exists i :: 0 <= i < |ms| && ms[i].id == id
  }

  /** No two entries share an id. */
  predicate UniqueIds(ms: seq<ChatMessage>) {
    forall i, j :: 0 <= i < j < |ms| ==> ms[i].id != ms[j].id
  }

  /** `newMessage`: the message is appended unless one with its id is
      already listed. */
  function OnNewMessage(ms: seq<ChatMessage>, m: ChatMessage): (r: seq<ChatMessage>)
    ensures HasId(ms, m.id) ==> r == ms
    ensures !HasId(ms, m.id) ==> r == ms + [m]
  {
    if exists i :: 0 <= i < |ms| && ms[i].id == m.id then ms else ms + [m]
  }

  /** Delivering the same message again changes nothing, and the list
      never holds two entries with one id. */
  lemma {:induction false} NewMessageIdempotent(ms: seq<ChatMessage>, m: ChatMessage)
    ensures OnNewMessage(OnNewMessage(ms, m), m) == OnNewMessage(ms, m)
    ensures UniqueIds(ms) ==> UniqueIds(OnNewMessage(ms, m))
  {
    if !HasId(ms, m.id) {
      var r := ms + [m];
      assert r[|ms|].id == m.id;
    }
  }

  function SeenOf(m: ChatMessage): seq<Id> {
    if m.seenBy.Some? then m.seenBy.value else []
  }

  /** `messageSeen`: the user is appended to `seenBy` of every entry with
      the message's id, with no check for a repeat; other entries are left
      alone. */
  function OnMessageSeen(ms: seq<ChatMessage>, messageId: string, userId: Id): (r: seq<ChatMessage>)
    ensures |r| == |ms|
    ensures forall i :: 0 <= i < |ms| && ms[i].id != messageId ==> r[i] == ms[i]
    ensures forall i :: 0 <= i < |ms| && ms[i].id == messageId ==>
              r[i] == ms[i].(seenBy := Some(SeenOf(ms[i]) + [userId]))
  {
    seq(|ms|, i requires 0 <= i < |ms| =>
      if ms[i].id == messageId then ms[i].(seenBy := Some(SeenOf(ms[i]) + [userId])) else ms[i])
  }

  /** Occurrences of a user in a `seenBy` list. */
  function Occurrences(xs: seq<Id>, x: Id): nat
    decreases |xs|
  {
    if xs == [] then 0 else (if xs[|xs| - 1] == x then 1 else 0) + Occurrences(xs[..|xs| - 1], x)
  }

  /** A repeated `messageSeen` lists the user once more each time. */
  lemma {:induction false} SeenNotDeduplicated(ms: seq<ChatMessage>, messageId: string, userId: Id, i: nat)
    requires i < |ms| && ms[i].id == messageId
    ensures Occurrences(SeenOf(OnMessageSeen(ms, messageId, userId)[i]), userId) ==
            Occurrences(SeenOf(ms[i]), userId) + 1
  {
    var s := SeenOf(ms[i]) + [userId];
    assert SeenOf(OnMessageSeen(ms, messageId, userId)[i]) == s;
    assert s[..|s| - 1] == SeenOf(ms[i]);
  }

  /** The temporary entry `sendMessage` shows before the server answers. */
  function Optimistic(tempId: string, conversationId: string, text: Option<string>, media: Option<Media>, now: int): (m: ChatMessage)
    ensures m.id == tempId && m.sender == "me" && m.seenBy == Some([])
    ensures m.conversationId == conversationId && m.text == text && m.media == media && m.createdAt == now
  {
    ChatMessage(tempId, conversationId, "me", text, media, Some([]), now)
  }

  /** An error acknowledgement: every entry with the temporary id goes,
      and exactly the others remain. */
  function Without(ms: seq<ChatMessage>, id: string): (r: seq<ChatMessage>)
    ensures forall m :: m in r <==> m in ms && m.id != id
    ensures |r| <= |ms|
    decreases |ms|
  {
    if ms == [] then []
    else Without(ms[..|ms| - 1], id) + (if ms[|ms| - 1].id == id then [] else [ms[|ms| - 1]])
  }

  lemma {:induction false} WithoutAbsent(ms: seq<ChatMessage>, id: string)
    requires !HasId(ms, id)
    ensures Without(ms, id) == ms
    decreases |ms|
  {
    if ms != [] {
      var front, last := ms[..|ms| - 1], ms[|ms| - 1];
      assert ms == front + [last];
      assert forall i :: 0 <= i < |ms| ==> ms[i].id != id;
      assert !HasId(front, id) by {
        forall i | 0 <= i < |front| ensures front[i].id != id {
          assert front[i] == ms[i];
        }
      }
      WithoutAbsent(front, id);
      assert last.id != id;
    }
  }

  /** A success acknowledgement: the server's message takes the place of
      every entry with the temporary id; nothing moves. */
  function Replaced(ms: seq<ChatMessage>, id: string, server: ChatMessage): (r: seq<ChatMessage>)
    ensures |r| == |ms|
    ensures forall i :: 0 <= i < |ms| ==> r[i] == (if ms[i].id == id then server else ms[i])
  {
    seq(|ms|, i requires 0 <= i < |ms| => if ms[i].id == id then server else ms[i])
  }

  /** Sending then failing restores the list as it was, provided the
      temporary id was new. */
  lemma {:induction false} FailedSendLeavesNoTrace(ms: seq<ChatMessage>, tempId: string, conversationId: string,
                                                   text: Option<string>, media: Option<Media>, now: int)
    requires !HasId(ms, tempId)
    ensures Without(ms + [Optimistic(tempId, conversationId, text, media, now)], tempId) == ms
  {
    var r := ms + [Optimistic(tempId, conversationId, text, media, now)];
    assert r[..|r| - 1] == ms;
    WithoutAbsent(ms, tempId);
  }

  /** Sending then succeeding leaves the server's message where the
      temporary one was: at the end, after everything that was there. */
  lemma {:induction false} AckedSendAppendsServerMessage(ms: seq<ChatMessage>, tempId: string, conversationId: string,
                                                         text: Option<string>, media: Option<Media>, now: int, server: ChatMessage)
    requires !HasId(ms, tempId)
    ensures Replaced(ms + [Optimistic(tempId, conversationId, text, media, now)], tempId, server) == ms + [server]
  {
    var r := Replaced(ms + [Optimistic(tempId, conversationId, text, media, now)], tempId, server);
    forall i | 0 <= i < |ms| ensures r[i] == ms[i] {
      assert ms[i].id != tempId;
    }
  }

  /** The server's answer to `sendMessage`.  `AckError` stands for an
      acknowledgement whose `error` is truthy, so its text is never empty;
      one with an empty `error` is not modelled. */
  datatype Ack = AckError(error: string) | AckMessage(message: ChatMessage)

  /** Events the hook sends over its socket. */
  datatype Outgoing =
    | JoinOut(conversationId: string)
    | SendOut(conversationId: string, text: Option<string>, media: Option<Media>, tempId: string)

  /** The hook's state: the socket handle (absent before the effect runs and
      after clean-up), the connection flag and the message list. */
  class ChatHook {
    var socket: Option<nat>
    var connected: bool
    var messages: seq<ChatMessage>
    var sent: seq<Outgoing>

    constructor ()
      ensures socket.None? && !connected && messages == [] && sent == []
    {
      socket, connected, messages, sent := None, false, [], [];
    }

    /** The effect: without a ready session nothing connects. */
    method Open(sessionReady: bool, handle: nat)
      modifies this
      ensures sessionReady ==> socket == Some(handle)
      ensures !sessionReady ==> socket == old(socket)
      ensures connected == old(connected) && messages == old(messages) && sent == old(sent)
    {
      if sessionReady {
        socket := Some(handle);
      }
    }

    /** The effect's clean-up: `socket.disconnect()` fires the hook's own
        `disconnect` listener, which clears the flag, and the socket is
        dropped. */
    method Close()
      modifies this
      ensures socket.None? && !connected && messages == old(messages) && sent == old(sent)
    {
      connected := false;
      socket := None;
    }

    method SetConnected(up: bool)
      modifies this
      ensures connected == up && socket == old(socket) && messages == old(messages) && sent == old(sent)
    {
      connected := up;
    }

    method ReceiveNewMessage(m: ChatMessage)
      modifies this
      ensures messages == OnNewMessage(old(messages), m)
      ensures socket == old(socket) && connected == old(connected) && sent == old(sent)
    {
      messages := OnNewMessage(messages, m);
    }

    method ReceiveMessageSeen(messageId: string, userId: Id)
      modifies this
      ensures messages == OnMessageSeen(old(messages), messageId, userId)
      ensures socket == old(socket) && connected == old(connected) && sent == old(sent)
    {
      messages := OnMessageSeen(messages, messageId, userId);
    }

    /** `joinConversation`: rejected with "Not connected" when there is no
        socket. */
    method JoinConversation(conversationId: string) returns (rejected: Option<string>)
      modifies this
      ensures socket.None? ==> rejected == Some("Not connected") && sent == old(sent)
      ensures socket.Some? ==> rejected.None? && sent == old(sent) + [JoinOut(conversationId)]
      ensures socket == old(socket) && connected == old(connected) && messages == old(messages)
    {
      if socket.None? {
        return Some("Not connected");
      }
      sent := sent + [JoinOut(conversationId)];
      return None;
    }

    /** `sendMessage`: throws "Socket not connected" when there is no
        socket; otherwise shows the optimistic entry and emits. */
    method SendMessage(conversationId: string, text: Option<string>, media: Option<Media>, tempId: string, now: int)
      returns (thrown: Option<string>)
      modifies this
      ensures socket.None? ==> thrown == Some("Socket not connected") && messages == old(messages) && sent == old(sent)
      ensures socket.Some? ==>
                && thrown.None?
                && messages == old(messages) + [Optimistic(tempId, conversationId, text, media, now)]
                && sent == old(sent) + [SendOut(conversationId, text, media, tempId)]
      ensures socket == old(socket) && connected == old(connected)
    {
      if socket.None? {
        return Some("Socket not connected");
      }
      messages := messages + [Optimistic(tempId, conversationId, text, media, now)];
      sent := sent + [SendOut(conversationId, text, media, tempId)];
      return None;
    }

    /** The acknowledgement of a send with temporary id `tempId`. */
    method Acknowledge(tempId: string, ack: Ack)
      modifies this
      ensures ack.AckError? ==> messages == Without(old(messages), tempId)
      ensures ack.AckMessage? ==> messages == Replaced(old(messages), tempId, ack.message)
      ensures socket == old(socket) && connected == old(connected) && sent == old(sent)
    {
      if ack.AckError? {
        messages := Without(messages, tempId);
      } else {
        messages := Replaced(messages, tempId, ack.message);
      }
    }
  }
}
