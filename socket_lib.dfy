/** The second Socket.IO set-up, lib/socket.ts: a module-level server
    singleton, and handlers `joinConversation` (rooms named by the raw
    conversation id) and `sendMessage` (stores the client's message and
    broadcasts `newMessage`).  Connections are not authenticated here. */
module SocketLib {
  import opened Common
  import opened ChatModel
  import opened Store

  type SocketId = string

  /** The message object a client sends; absent fields are `None`. */
  datatype ClientMessage = ClientMessage(
    conversation: Option<Id>,
    sender: Option<Id>,
    content: Option<string>,
    attachments: Option<seq<Attachment>>,
    readBy: Option<seq<Id>>)

  /** One `newMessage` emit: the stored message, its id, and the sockets
      that receive it. */
  datatype Emit = NewMessageEmit(to: set<SocketId>, id: Id, message: Message)

  /** The server handle `getOrCreateIO` hands out; creation is the caller's
      `created` argument. */
  class Singleton {
    var ioInstance: Option<nat>

    constructor ()
      ensures ioInstance.None?
    {
      ioInstance := None;
    }

    /** `getIO`: null until a server has been created. */
    function GetIO(): Option<nat>
      reads this
    {
      ioInstance
    }

    /** `getOrCreateIO`: the first call keeps the server it creates, every
        later call returns that same one. */
    method GetOrCreateIO(created: nat) returns (io: nat)
      modifies this
      ensures old(ioInstance).Some? ==> io == old(ioInstance).value && ioInstance == old(ioInstance)
      ensures old(ioInstance).None? ==> io == created && ioInstance == Some(created)
      ensures GetIO() == Some(io)
    {
      if ioInstance.Some? {
        return ioInstance.value;
      }
      ioInstance := Some(created);
      return created;
    }
  }

  class Handlers {
    var rooms: map<SocketId, set<string>>
    var outbox: seq<Emit>

    constructor ()
      ensures rooms == map[] && outbox == []
    {
      rooms, outbox := map[], [];
    }

    /** A new connection has joined no room. */
    method Connect(sid: SocketId)
      requires sid !in rooms
      modifies this
      ensures rooms == old(rooms)[sid := {}] && outbox == old(outbox)
    {
      rooms := rooms[sid := {}];
    }

    /** `joinConversation`: an empty id is only logged; otherwise the socket
        joins the room named by the id itself, without prefix. */
    method JoinConversation(sid: SocketId, conversationId: Option<string>)
      requires sid in rooms
      modifies this
      ensures outbox == old(outbox)
      ensures !Present(conversationId) ==> rooms == old(rooms)
      ensures Present(conversationId) ==> rooms == old(rooms)[sid := old(rooms)[sid] + {conversationId.value}]
    {
      if !Present(conversationId) {
        return;
      }
      rooms := rooms[sid := rooms[sid] + {conversationId.value}];
    }

    /** `sendMessage`: a message without conversation, sender or content is
        only logged.  Otherwise the client's object is stored as it is
        (absent lists become empty) and `newMessage` goes to the room of
        its conversation.  No conversation is updated, and a failed insert
        is only logged: the client hears nothing either way. */
    method SendMessage(db: Database, msg: ClientMessage, now: int, newId: Id)
      requires newId !in db.messages
      modifies this, db
      ensures rooms == old(rooms)
      ensures db.users == old(db.users) && db.conversations == old(db.conversations)
      ensures db.requests == old(db.requests) && db.projects == old(db.projects)
      ensures !Accepted(msg) ==> db.messages == old(db.messages) && outbox == old(outbox)
      ensures Accepted(msg) ==>
                var m := Stored(msg, now);
                if MessageValid(m) then
                  && db.messages == old(db.messages)[newId := m]
                  && outbox == old(outbox) + [NewMessageEmit(RoomMembers(rooms, msg.conversation.value), newId, m)]
                else db.messages == old(db.messages) && outbox == old(outbox)
    {
      if !Present(msg.conversation) || !Present(msg.sender) || !Present(msg.content) {
        return;
      }
      var m := Stored(msg, now);
      if !MessageValid(m) {
        return;
      }
      db.messages := db.messages[newId := m];
      outbox := outbox + [NewMessageEmit(RoomMembers(rooms, msg.conversation.value), newId, m)];
    }
  }

  /** The guard of `sendMessage`: conversation, sender and content all
      non-empty. */
  predicate Accepted(msg: ClientMessage) {
    Present(msg.conversation) && Present(msg.sender) && Present(msg.content)
  }

  /** `Message.create(message)` on an accepted client message. */
  function Stored(msg: ClientMessage, now: int): (m: Message)
    requires Accepted(msg)
    ensures m.conversation == msg.conversation.value && m.sender == msg.sender.value && m.content == msg.content.value
    ensures m.attachments == (if msg.attachments.Some? then msg.attachments.value else [])
    ensures m.readBy == (if msg.readBy.Some? then msg.readBy.value else [])
  {
    NewMessage(msg.conversation.value, msg.sender.value, msg.content, if msg.attachments.Some? then msg.attachments.value else [],
               if msg.readBy.Some? then msg.readBy.value else [], now)
  }

  /** Unlike the `message:send` gateway, this path trusts the client: the
      stored sender is whatever the client claims, and `readBy` does not
      start with the sender unless the client put them there. */
  lemma ClientChoosesSender(conversation: Id, claimed: Id, content: string, now: int)
    requires conversation != "" && claimed != "" && content != ""
    ensures Stored(ClientMessage(Some(conversation), Some(claimed), Some(content), None, None), now).sender == claimed
    ensures Stored(ClientMessage(Some(conversation), Some(claimed), Some(content), None, None), now).readBy == []
  {
  }
}
