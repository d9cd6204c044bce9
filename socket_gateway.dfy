/** The Socket.IO gateway of pages/api/socket/io.ts: connections admitted by
    their session token, rooms `user:<id>` and `conversation:<id>`, and the
    `join_conversation`, `message:send`, `typing` and `read` events.  Rooms
    are sets of socket ids; every emit is appended to an outbox together
    with the sockets it reaches. */
module SocketGateway {
  import opened Common
  import opened ChatModel
  import opened Store

  type SocketId = string

  datatype Event =
    | MessageNew(id: Id, conversation: Id, sender: Id, content: string, attachments: seq<Attachment>, createdAt: int)
    | SendFailed(message: string)
    | Typing(userId: Id)
    | Read(userId: Id)

  /** One emit: the event and the sockets that receive it. */
  datatype Emit = Emit(to: set<SocketId>, event: Event)

  /** The outcome of the connection middleware. */
  datatype Admission = Admitted | Refused(reason: string)

  function UserRoom(user: Id): string {
    "user:" + user
  }

  function ConversationRoom(conversation: string): string {
    "conversation:" + conversation
  }

  /** The two kinds of room never share a name, so a conversation event
      never reaches a socket only because of its user room. */
  lemma RoomKindsDisjoint(user: Id, conversation: string)
    ensures UserRoom(user) != ConversationRoom(conversation)
  {
    assert UserRoom(user)[0] == 'u' && ConversationRoom(conversation)[0] == 'c';
  }

  const SendFailure := "Failed to send message"

  class Gateway {
    /** `socket.data.userId` of every admitted socket. */
    var userOf: map<SocketId, Id>
    /** The rooms each admitted socket has joined. */
    var rooms: map<SocketId, set<string>>
    var outbox: seq<Emit>

    /** Every admitted socket has rooms and sits in its own user's room. */
    predicate Valid()
      reads this
    {
      userOf.Keys == rooms.Keys && forall s :: s in userOf ==> UserRoom(userOf[s]) in rooms[s]
    }

    constructor ()
      ensures Valid() && userOf == map[] && rooms == map[] && outbox == []
    {
      userOf, rooms, outbox := map[], map[], [];
    }

    /** The connection middleware.  `token` is what `getToken` yields (its
        `id` claim when there is one), `tokenFails` that it threw.  Only a
        token with a non-empty id admits the socket. */
    method Connect(sid: SocketId, token: Option<Option<string>>, tokenFails: bool) returns (a: Admission)
      requires Valid() && sid !in userOf
      modifies this
      ensures Valid() && outbox == old(outbox)
      ensures tokenFails ==> a == Refused("auth_error") && userOf == old(userOf) && rooms == old(rooms)
      ensures !tokenFails && !(token.Some? && Present(token.value)) ==>
                a == Refused("unauthorized") && userOf == old(userOf) && rooms == old(rooms)
      ensures !tokenFails && token.Some? && Present(token.value) ==>
                && a == Admitted
                && userOf == old(userOf)[sid := token.value.value]
                && rooms == old(rooms)[sid := {UserRoom(token.value.value)}]
    {
      if tokenFails {
        return Refused("auth_error");
      }
      if token.None? || !Present(token.value) {
        return Refused("unauthorized");
      }
      userOf := userOf[sid := token.value.value];
      rooms := rooms[sid := {UserRoom(token.value.value)}];
      return Admitted;
    }

    /** `join_conversation`: an empty id is ignored. */
    method JoinConversation(sid: SocketId, conversationId: Option<string>)
      requires Valid() && sid in userOf
      modifies this
      ensures Valid() && userOf == old(userOf) && outbox == old(outbox)
      ensures !Present(conversationId) ==> rooms == old(rooms)
      ensures Present(conversationId) ==>
                rooms == old(rooms)[sid := old(rooms)[sid] + {ConversationRoom(conversationId.value)}]
    {
      if !Present(conversationId) {
        return;
      }
      rooms := rooms[sid := rooms[sid] + {ConversationRoom(conversationId.value)}];
    }

    /** `message:send`: the message is stored with `readBy` the sender and
        the conversation pointed at it, then `message:new` goes to the whole
        conversation room, the sender's own socket included when it has
        joined.  The sender's membership is not checked.  Any failure
        (the insert rejected, the conversation update clashing on the
        index) sends an error to the sending socket alone; a message
        stored before the failure stays. */
    method MessageSend(db: Database, sid: SocketId, conversationId: Option<Id>, content: Option<string>,
                       attachments: Option<seq<Attachment>>, now: int, newId: Id)
      requires Valid() && sid in userOf && db.Valid() && newId !in db.messages
      modifies this, db
      ensures Valid() && userOf == old(userOf) && rooms == old(rooms)
      ensures db.Valid()
      ensures db.users == old(db.users) && db.requests == old(db.requests) && db.projects == old(db.projects)
      ensures conversationId.None? ==>
                db.messages == old(db.messages) && db.conversations == old(db.conversations) &&
                outbox == old(outbox) + [Emit({sid}, SendFailed(SendFailure))]
      ensures conversationId.Some? ==>
                var cid := conversationId.value;
                var m := NewMessage(cid, old(userOf)[sid], content, if attachments.Some? then attachments.value else [],
                                    [old(userOf)[sid]], now);
                if !MessageValid(m) then
                  && db.messages == old(db.messages) && db.conversations == old(db.conversations)
                  && outbox == old(outbox) + [Emit({sid}, SendFailed(SendFailure))]
                else
                  && db.messages == old(db.messages)[newId := m]
                  && (cid !in old(db.conversations) ==>
                        && db.conversations == old(db.conversations)
                        && outbox == old(outbox) + [Emit(RoomMembers(rooms, ConversationRoom(cid)), MessageNew(newId, cid, m.sender, m.content, m.attachments, now))])
                  && (cid in old(db.conversations) ==>
                        var c := old(db.conversations)[cid].(lastMessageAt := Some(now), lastMessage := Some(newId), updatedAt := now);
                        if Admits(old(db.conversations), cid, c) then
                          && db.conversations == old(db.conversations)[cid := c]
                          && outbox == old(outbox) + [Emit(RoomMembers(rooms, ConversationRoom(cid)), MessageNew(newId, cid, m.sender, m.content, m.attachments, now))]
                        else
                          && db.conversations == old(db.conversations)
                          && outbox == old(outbox) + [Emit({sid}, SendFailed(SendFailure))])
    {
      if conversationId.None? {
        outbox := outbox + [Emit({sid}, SendFailed(SendFailure))];
        return;
      }
      var cid := conversationId.value;
      var userId := userOf[sid];
      var m := NewMessage(cid, userId, content, if attachments.Some? then attachments.value else [], [userId], now);
      if !MessageValid(m) {
        outbox := outbox + [Emit({sid}, SendFailed(SendFailure))];
        return;
      }
      db.messages := db.messages[newId := m];
      if cid in db.conversations {
        var c := db.conversations[cid].(lastMessageAt := Some(now), lastMessage := Some(newId), updatedAt := now);
        if !Admits(db.conversations, cid, c) {
          outbox := outbox + [Emit({sid}, SendFailed(SendFailure))];
          return;
        }
        AdmittedWriteKeepsIndex(db.conversations, cid, c);
        db.conversations := db.conversations[cid := c];
      }
      outbox := outbox + [Emit(RoomMembers(rooms, ConversationRoom(cid)), MessageNew(newId, cid, m.sender, m.content, m.attachments, now))];
    }

    /** `typing`: the other sockets of the conversation room hear who is
        typing; the typing socket does not. */
    method TypingEvent(sid: SocketId, conversationId: string)
      requires Valid() && sid in userOf
      modifies this
      ensures Valid() && userOf == old(userOf) && rooms == old(rooms)
      ensures outbox == old(outbox) + [Emit(RoomMembers(rooms, ConversationRoom(conversationId)) - {sid}, Typing(userOf[sid]))]
      ensures sid !in outbox[|outbox| - 1].to
    {
      outbox := outbox + [Emit(RoomMembers(rooms, ConversationRoom(conversationId)) - {sid}, Typing(userOf[sid]))];
    }

    /** `read`: the user joins `readBy` of every message of the conversation
        they had not read, then the whole room hears it.  An id that cannot
        be cast makes the update throw, and the failure is swallowed:
        nothing changes and nothing is sent. */
    method ReadEvent(db: Database, sid: SocketId, conversationId: Id, now: int)
      requires Valid() && sid in userOf
      modifies this, db
      ensures Valid() && userOf == old(userOf) && rooms == old(rooms)
      ensures db.users == old(db.users) && db.conversations == old(db.conversations)
      ensures db.requests == old(db.requests) && db.projects == old(db.projects)
      ensures IsObjectId(conversationId) && IsObjectId(userOf[sid]) ==>
                && db.messages == MarkedRead(old(db.messages), conversationId, userOf[sid], now)
                && outbox == old(outbox) + [Emit(RoomMembers(rooms, ConversationRoom(conversationId)), Read(userOf[sid]))]
      ensures !(IsObjectId(conversationId) && IsObjectId(userOf[sid])) ==>
                db.messages == old(db.messages) && outbox == old(outbox)
    {
      var userId := userOf[sid];
      if !IsObjectId(conversationId) || !IsObjectId(userId) {
        return;
      }
      db.messages := MarkedRead(db.messages, conversationId, userId, now);
      outbox := outbox + [Emit(RoomMembers(rooms, ConversationRoom(conversationId)), Read(userId))];
    }
  }

  /** The HTTP handler that hosts the gateway: the server is created and
      set up on the first call only. */
  class Host {
    var io: Gateway?
    /** How many times a server has been created and set up. */
    var setups: nat

    predicate Valid()
      reads this
    {
      setups == (if io == null then 0 else 1)
    }

    constructor ()
      ensures Valid() && io == null
    {
      io := null;
      setups := 0;
    }

    method Handle()
      requires Valid()
      modifies this
      ensures Valid() && io != null
      ensures old(io) != null ==> io == old(io)
      ensures old(io) == null ==> fresh(io) && io.Valid() && io.userOf == map[] && io.outbox == []
    {
      if io == null {
        io := new Gateway();
        setups := setups + 1;
      }
    }
  }
}
