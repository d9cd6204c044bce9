/** The chat HTTP routes: listing and creating conversations, fetching one
    conversation or message for a participant, reading a conversation's
    history (which marks it read), posting a message, and marking read.
    The session is the caller's user id, absent when unauthenticated. */
module ChatRoutes {
  import opened Common
  import opened UserModel
  import opened ChatModel
  import opened Store

  /** The `message` of the 500 the handlers' own catch blocks answer. */
  const ServerError := "internal_server_error"

  /** The conversations whose participants include `user`. */
  function ConversationsOf(convs: map<Id, Conversation>, user: Id): (r: set<Id>)
    ensures forall id :: id in r <==> id in convs && user in convs[id].participants
  {
    set id | id in convs && user in convs[id].participants
  }

  /** `updatedAt` of each selected conversation, the key of the listing. */
  function UpdatedAtKey(convs: map<Id, Conversation>, ids: set<Id>): (key: map<Id, int>)
    requires ids <= convs.Keys
    ensures key.Keys == ids && forall id :: id in ids ==> key[id] == convs[id].updatedAt
  {
    map id | id in ids :: convs[id].updatedAt
  }

  /** GET /api/chat/conversations: the caller's conversations, most
      recently updated first.  Querying by a caller id that cannot be cast
      throws, and nothing catches it. */
  method ListConversations(convs: map<Id, Conversation>, caller: Option<Id>) returns (r: Response<seq<Id>>)
    ensures !Present(caller) ==> r == Err(401, "unauthorized")
    ensures Present(caller) && !IsObjectId(caller.value) ==> r == Err(500, Uncaught)
    ensures Present(caller) && IsObjectId(caller.value) ==>
              && r.Ok? && r.status == 200
              && ListsExactly(r.body, ConversationsOf(convs, caller.value))
              && InOrder(r.body, UpdatedAtKey(convs, ConversationsOf(convs, caller.value)), true)
  {
    if !Present(caller) {
      return Err(401, "unauthorized");
    }
    if !IsObjectId(caller.value) {
      return Err(500, Uncaught);
    }
    var mine := ConversationsOf(convs, caller.value);
    var ids := SortedKeys(UpdatedAtKey(convs, mine), true);
    return Ok(200, ids);
  }

  /** The participants a new conversation gets: the caller first, then the
      requested ids, each id once, in first-occurrence order. */
  function NewParticipants(caller: Id, ids: seq<Id>): (p: seq<Id>)
    ensures |p| >= 1 && p[0] == caller && Distinct(p)
    ensures forall x :: x in p <==> x == caller || x in ids
  {
    Dedup([caller] + ids)
  }

  /** The conversation POST builds: a group only when one is asked for and
      more than two distinct people take part; an empty name is left out;
      `lastMessageAt` is the creation time. */
  function CreatedConversation(caller: Id, ids: seq<Id>, isGroup: bool, name: Option<string>, now: int): (c: Conversation)
    ensures c.participants == NewParticipants(caller, ids)
    ensures c.isGroup <==> isGroup && |NewParticipants(caller, ids)| > 2
    ensures c.name == (if Present(name) then name else None)
    ensures c.lastMessageAt == Some(now) && c.lastMessage.None? && c.createdAt == now && c.updatedAt == now
  {
    var p := NewParticipants(caller, ids);
    NewConversation(isGroup && |p| > 2, if Present(name) then name else None, p, Some(now), now)
  }

  /** Between two people the conversation is direct, whatever the request
      says, and the caller listing themselves changes nothing. */
  lemma {:induction false} TwoPeopleNeverGroup(caller: Id, other: Id, isGroup: bool, name: Option<string>, now: int)
    ensures NewParticipants(caller, [other]) == (if caller == other then [caller] else [caller, other])
    ensures NewParticipants(caller, [caller, other]) == NewParticipants(caller, [other])
    ensures !CreatedConversation(caller, [other], isGroup, name, now).isGroup
    ensures !CreatedConversation(caller, [caller, other], isGroup, name, now).isGroup
  {
    DedupPair(caller, other);
    DedupRepeat(caller, other);
  }

  lemma {:induction false} DedupPair(a: Id, b: Id)
    ensures Dedup([a] + [b]) == (if a == b then [a] else [a, b])
  {
    var e: seq<Id> := [];
    var xs := [a] + [b];
    assert xs[0] == a && xs[1..] == [b];
    assert e + [a] == [a];
    assert Dedup(xs) == DedupFrom([a], [b]);
    assert [b][1..] == [];
    if a == b {
      assert DedupFrom([a], [b]) == DedupFrom([a], []);
    } else {
      assert DedupFrom([a], [b]) == DedupFrom([a] + [b], []);
      assert [a] + [b] == [a, b];
    }
  }

  lemma {:induction false} DedupRepeat(a: Id, b: Id)
    ensures Dedup([a] + [a, b]) == Dedup([a] + [b])
  {
    var e: seq<Id> := [];
    assert [a] + [a, b] == [a, a, b] && [a, a, b][1..] == [a, b] && e + [a] == [a];
    assert [a] + [b] == [a, b] && [a, b][1..] == [b];
    assert Dedup([a, a, b]) == DedupFrom(e, [a, a, b]) == DedupFrom([a], [a, b]) == DedupFrom([a], [b]);
    assert Dedup([a, b]) == DedupFrom(e, [a, b]) == DedupFrom([a], [b]);
  }

  /** POST /api/chat/conversations: always inserts a new document; there is
      no lookup of an existing conversation between the same people.  A
      participant id that cannot be cast, or a clash on the unique index,
      makes the insert throw, and nothing catches it. */
  method CreateConversation(db: Database, caller: Option<Id>, participantIds: Option<seq<Id>>, isGroup: bool,
                            name: Option<string>, now: int, newId: Id) returns (r: Response<Id>)
    requires db.Valid() && newId !in db.conversations
    modifies db
    ensures db.Valid()
    ensures db.users == old(db.users) && db.messages == old(db.messages)
    ensures db.requests == old(db.requests) && db.projects == old(db.projects)
    ensures !Present(caller) ==> r == Err(401, "unauthorized") && db.conversations == old(db.conversations)
    ensures Present(caller) && (participantIds.None? || participantIds.value == []) ==>
              r == Err(400, "participants_required") && db.conversations == old(db.conversations)
    ensures Present(caller) && participantIds.Some? && participantIds.value != [] ==>
              var c := CreatedConversation(caller.value, participantIds.value, isGroup, name, now);
              if ConversationValid(c) && Admits(old(db.conversations), newId, c) then
                r == Ok(201, newId) && db.conversations == old(db.conversations)[newId := c]
              else
                r == Err(500, Uncaught) && db.conversations == old(db.conversations)
  {
    if !Present(caller) {
      return Err(401, "unauthorized");
    }
    if participantIds.None? || participantIds.value == [] {
      return Err(400, "participants_required");
    }
    var c := CreatedConversation(caller.value, participantIds.value, isGroup, name, now);
    if !ConversationValid(c) || !Admits(db.conversations, newId, c) {
      return Err(500, Uncaught);
    }
    AdmittedWriteKeepsIndex(db.conversations, newId, c);
    db.conversations := db.conversations[newId := c];
    return Ok(201, newId);
  }

  /** Because the creation time is part of the index key, a second direct
      conversation between the same people is admitted as soon as no
      stored one was created in the same millisecond. */
  lemma {:induction false} RepeatCreateAdmitted(convs: map<Id, Conversation>, newId: Id, caller: Id, ids: seq<Id>,
                                                isGroup: bool, name: Option<string>, now: int)
    requires forall b :: b in convs ==> convs[b].lastMessageAt != Some(now)
    ensures Admits(convs, newId, CreatedConversation(caller, ids, isGroup, name, now))
  {
    var c := CreatedConversation(caller, ids, isGroup, name, now);
    forall b | b in convs && b != newId
      ensures !Clashes(c, convs[b])
    {
      assert c.lastMessageAt == Some(now);
    }
  }

  /** GET /api/chat/conversations/getConversationById.  The participant
      list is populated with user documents, so a participant whose user
      document is gone no longer counts.  A conversation id that cannot be
      cast throws inside the handler's own catch, which answers 500. */
  function ConversationById(convs: map<Id, Conversation>, users: map<Id, UserRecord>, caller: Option<Id>,
                            conversationId: Option<string>): (r: Response<Id>)
    ensures !Present(caller) ==> r == Err(401, "unauthorized")
    ensures Present(caller) && !Present(conversationId) ==> r == Err(400, "Conversation Id required")
    ensures Present(caller) && Present(conversationId) && !IsObjectId(conversationId.value) ==>
              r == Err(500, ServerError)
    ensures (Present(caller) && Present(conversationId) && IsObjectId(conversationId.value) &&
             conversationId.value !in convs) ==> r == Err(404, "Conversation Not Found")
    ensures r.Ok? <==> Present(caller) && Present(conversationId) && IsObjectId(conversationId.value) &&
                       conversationId.value in convs && caller.value in convs[conversationId.value].participants &&
                       caller.value in users
    ensures r.Ok? ==> r == Ok(200, conversationId.value)
    ensures (Present(caller) && Present(conversationId) && IsObjectId(conversationId.value) &&
             conversationId.value in convs && !r.Ok?) ==> r == Err(401, "unauthorized")
  {
    if !Present(caller) then Err(401, "unauthorized")
    else if !Present(conversationId) then Err(400, "Conversation Id required")
    else if !IsObjectId(conversationId.value) then Err(500, ServerError)
    else if conversationId.value !in convs then Err(404, "Conversation Not Found")
    else if !(caller.value in convs[conversationId.value].participants && caller.value in users) then
      Err(401, "unauthorized")
    else Ok(200, conversationId.value)
  }

  /** Only a participant ever receives a conversation. */
  lemma ConversationOnlyToParticipants(convs: map<Id, Conversation>, users: map<Id, UserRecord>, caller: Option<Id>,
                                       conversationId: Option<string>)
    requires ConversationById(convs, users, caller, conversationId).Ok?
    ensures caller.Some? && ConversationById(convs, users, caller, conversationId).body in convs
    ensures caller.value in convs[ConversationById(convs, users, caller, conversationId).body].participants
  {
  }

  /** GET /api/chat/messages/get-message-by-id.  The message's conversation
      is populated for its participants; when it no longer exists the
      membership test dereferences null, which the handler's catch turns
      into 500. */
  function MessageById(msgs: map<Id, Message>, convs: map<Id, Conversation>, caller: Option<Id>,
                       messageId: Option<string>): (r: Response<Id>)
    ensures !Present(caller) ==> r == Err(401, "unauthorized")
    ensures Present(caller) && !Present(messageId) ==> r == Err(400, "messageId_required")
    ensures Present(caller) && Present(messageId) && !IsObjectId(messageId.value) ==>
              r == Err(500, ServerError)
    ensures Present(caller) && Present(messageId) && IsObjectId(messageId.value) && messageId.value !in msgs ==>
              r == Err(404, "message_not_found")
    ensures (Present(caller) && Present(messageId) && messageId.value in msgs &&
             msgs[messageId.value].conversation !in convs) ==> r.Err? && r.status == 500
    ensures r.Ok? <==> Present(caller) && Present(messageId) && IsObjectId(messageId.value) && messageId.value in msgs &&
                       msgs[messageId.value].conversation in convs &&
                       caller.value in convs[msgs[messageId.value].conversation].participants
    ensures r.Ok? ==> r == Ok(200, messageId.value)
  {
    if !Present(caller) then Err(401, "unauthorized")
    else if !Present(messageId) then Err(400, "messageId_required")
    else if !IsObjectId(messageId.value) then Err(500, ServerError)
    else if messageId.value !in msgs then Err(404, "message_not_found")
    else if msgs[messageId.value].conversation !in convs then Err(500, ServerError)
    else if caller.value !in convs[msgs[messageId.value].conversation].participants then Err(401, "unauthorized")
    else Ok(200, messageId.value)
  }

  /** Only a participant of a message's conversation ever receives it. */
  lemma MessageOnlyToParticipants(msgs: map<Id, Message>, convs: map<Id, Conversation>, caller: Option<Id>,
                                  messageId: Option<string>)
    requires MessageById(msgs, convs, caller, messageId).Ok?
    ensures caller.Some? && messageId.Some? && messageId.value in msgs
    ensures caller.value in convs[msgs[messageId.value].conversation].participants
  {
  }

  /** The messages of one conversation. */
  function MessagesOf(msgs: map<Id, Message>, conversation: Id): (r: set<Id>)
    ensures forall id :: id in r <==> id in msgs && msgs[id].conversation == conversation
  {
    set id | id in msgs && msgs[id].conversation == conversation
  }

  /** A message's sort timestamp. */
  function MessageTime(m: Message): int {
    m.createdAt
  }

  /** The ids of a list of (id, document) pairs. */
  function Ids(docs: seq<(Id, Message)>): (r: seq<Id>)
    ensures |r| == |docs| && forall i :: 0 <= i < |docs| ==> r[i] == docs[i].0
  {
    seq(|docs|, i requires 0 <= i < |docs| => docs[i].0)
  }

  /** Does each pair hold the document stored under its id? */
  predicate Snapshot(docs: seq<(Id, Message)>, msgs: map<Id, Message>) {
    forall i :: 0 <= i < |docs| ==> docs[i].0 in msgs && docs[i].1 == msgs[docs[i].0]
  }

  /** GET /api/chat/messages: the conversation's messages, oldest first, as
      they were before the caller was added to `readBy` of every message
      they had not read.  An id that cannot be cast throws, and nothing
      catches it; the first query fails before any write. */
  method ListMessages(db: Database, caller: Option<Id>, conversationId: Option<string>, now: int)
    returns (r: Response<seq<(Id, Message)>>)
    modifies db
    ensures db.users == old(db.users) && db.conversations == old(db.conversations)
    ensures db.requests == old(db.requests) && db.projects == old(db.projects)
    ensures !Present(caller) ==> r == Err(401, "unauthorized") && db.messages == old(db.messages)
    ensures Present(caller) && !Present(conversationId) ==>
              r == Err(400, "conversationId_required") && db.messages == old(db.messages)
    ensures Present(caller) && Present(conversationId) && !(IsObjectId(conversationId.value) && IsObjectId(caller.value)) ==>
              r == Err(500, Uncaught) && db.messages == old(db.messages)
    ensures Present(caller) && Present(conversationId) && IsObjectId(conversationId.value) && IsObjectId(caller.value) ==>
              && r.Ok? && r.status == 200
              && ListsExactly(Ids(r.body), MessagesOf(old(db.messages), conversationId.value))
              && InOrder(Ids(r.body), SortKey(old(db.messages), MessagesOf(old(db.messages), conversationId.value), MessageTime), false)
              && Snapshot(r.body, old(db.messages))
              && db.messages == MarkedRead(old(db.messages), conversationId.value, caller.value, now)
  {
    if !Present(caller) {
      return Err(401, "unauthorized");
    }
    if !Present(conversationId) {
      return Err(400, "conversationId_required");
    }
    if !IsObjectId(conversationId.value) || !IsObjectId(caller.value) {
      return Err(500, Uncaught);
    }
    var cid := conversationId.value;
    var ids := SortedKeys(SortKey(db.messages, MessagesOf(db.messages, cid), MessageTime), false);
    var msgs := db.messages;
    var docs := seq(|ids|, i requires 0 <= i < |ids| => (ids[i], msgs[ids[i]]));
    assert Ids(docs) == ids;
    db.messages := MarkedRead(db.messages, cid, caller.value, now);
    return Ok(200, docs);
  }

  /** POST /api/chat/messages: stores the message and then points the
      conversation at it.  Neither the caller's membership nor the
      conversation's existence is checked; an update of a missing
      conversation changes nothing.  A failed insert (an id that cannot be
      cast, an attachment without url or type) throws before any write; a
      failed conversation update (a clash on the unique index) throws after
      the message is stored.  Nothing catches either. */
  method PostMessage(db: Database, caller: Option<Id>, conversationId: Option<string>, content: Option<string>,
                     attachments: Option<seq<Attachment>>, now: int, newId: Id) returns (r: Response<Id>)
    requires db.Valid() && newId !in db.messages
    modifies db
    ensures db.Valid()
    ensures db.users == old(db.users) && db.requests == old(db.requests) && db.projects == old(db.projects)
    ensures !Present(caller) ==> r == Err(401, "unauthorized") && unchanged(db)
    ensures Present(caller) && (!Present(conversationId) || (!Present(content) && (attachments.None? || attachments.value == []))) ==>
              r == Err(400, "bad_request") && unchanged(db)
    ensures Present(caller) && Present(conversationId) && (Present(content) || (attachments.Some? && attachments.value != [])) ==>
              var m := NewMessage(conversationId.value, caller.value, Some(if Present(content) then content.value else ""),
                                  if attachments.Some? then attachments.value else [], [caller.value], now);
              if !MessageValid(m) then r == Err(500, Uncaught) && unchanged(db)
              else
                && db.messages == old(db.messages)[newId := m]
                && (conversationId.value !in old(db.conversations) ==>
                      r == Ok(201, newId) && db.conversations == old(db.conversations))
                && (conversationId.value in old(db.conversations) ==>
                      var c := old(db.conversations)[conversationId.value].(lastMessageAt := Some(now), lastMessage := Some(newId), updatedAt := now);
                      if Admits(old(db.conversations), conversationId.value, c) then
                        r == Ok(201, newId) && db.conversations == old(db.conversations)[conversationId.value := c]
                      else
                        r == Err(500, Uncaught) && db.conversations == old(db.conversations))
  {
    if !Present(caller) {
      return Err(401, "unauthorized");
    }
    if !Present(conversationId) || (!Present(content) && (attachments.None? || attachments.value == [])) {
      return Err(400, "bad_request");
    }
    var cid := conversationId.value;
    var m := NewMessage(cid, caller.value, Some(if Present(content) then content.value else ""),
                        if attachments.Some? then attachments.value else [], [caller.value], now);
    if !MessageValid(m) {
      return Err(500, Uncaught);
    }
    db.messages := db.messages[newId := m];
    if cid in db.conversations {
      var c := db.conversations[cid].(lastMessageAt := Some(now), lastMessage := Some(newId), updatedAt := now);
      if !Admits(db.conversations, cid, c) {
        return Err(500, Uncaught);
      }
      AdmittedWriteKeepsIndex(db.conversations, cid, c);
      db.conversations := db.conversations[cid := c];
    }
    return Ok(201, newId);
  }

  /** A stored message is always read by its sender and by nobody else. */
  lemma PostedMessageReadOnlyBySender(cid: Id, sender: Id, content: Option<string>, attachments: seq<Attachment>, now: int)
    ensures forall u :: u in NewMessage(cid, sender, content, attachments, [sender], now).readBy <==> u == sender
  {
  }

  /** PATCH /api/chat/messages/read: adds the caller once to `readBy` of
      every message of the conversation they had not read.  An id that
      cannot be cast throws inside the handler's own catch. */
  method MarkRead(db: Database, caller: Option<Id>, conversationId: Option<string>, now: int) returns (r: Response<()>)
    modifies db
    ensures db.users == old(db.users) && db.conversations == old(db.conversations)
    ensures db.requests == old(db.requests) && db.projects == old(db.projects)
    ensures !Present(caller) ==> r == Err(401, "unauthorized") && db.messages == old(db.messages)
    ensures Present(caller) && !Present(conversationId) ==>
              r == Err(400, "conversationId_required") && db.messages == old(db.messages)
    ensures Present(caller) && Present(conversationId) && !(IsObjectId(conversationId.value) && IsObjectId(caller.value)) ==>
              r == Err(500, ServerError) && db.messages == old(db.messages)
    ensures Present(caller) && Present(conversationId) && IsObjectId(conversationId.value) && IsObjectId(caller.value) ==>
              r == Ok(204, ()) && db.messages == MarkedRead(old(db.messages), conversationId.value, caller.value, now)
  {
    if !Present(caller) {
      return Err(401, "unauthorized");
    }
    if !Present(conversationId) {
      return Err(400, "conversationId_required");
    }
    if !IsObjectId(conversationId.value) || !IsObjectId(caller.value) {
      return Err(500, ServerError);
    }
    db.messages := MarkedRead(db.messages, conversationId.value, caller.value, now);
    return Ok(204, ());
  }
}
