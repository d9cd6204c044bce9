/** Stored chat documents (models/Message.ts, models/Conversation.ts): a
    message belongs to one conversation, a conversation lists its
    participants, and direct conversations carry a partial unique index. */
module ChatModel {
  import opened Common

  /** An attachment: `url` and `type` are required, `name` and `size`
      optional.  The field `type` is called `kind` here. */
  datatype Attachment = Attachment(url: string, kind: string, name: Option<string>, size: Option<int>)

  datatype Message = Message(
    conversation: Id,
    sender: Id,
    content: string,
    attachments: seq<Attachment>,
    readBy: seq<Id>,
    createdAt: int,
    updatedAt: int)

  datatype Conversation = Conversation(
    isGroup: bool,
    name: Option<string>,
    participants: seq<Id>,
    lastMessageAt: Option<int>,
    lastMessage: Option<Id>,
    createdAt: int,
    updatedAt: int)

  /** What the schema demands before a message is written: `conversation`
      and `sender` present and castable, every `readBy` entry castable, and
      every attachment with a non-empty `url` and `type` (a required string
      path rejects ""). */
  predicate MessageValid(m: Message) {
    && IsObjectId(m.conversation)
    && IsObjectId(m.sender)
    && (forall i :: 0 <= i < |m.readBy| ==> IsObjectId(m.readBy[i]))
    && (forall i :: 0 <= i < |m.attachments| ==> m.attachments[i].url != "" && m.attachments[i].kind != "")
  }

  /** Every participant entry is a required, castable user reference. */
  predicate ConversationValid(c: Conversation) {
    forall i :: 0 <= i < |c.participants| ==> IsObjectId(c.participants[i])
  }

  /** A message as `Message.create` stores it: an absent `content` takes the
      default "", and both timestamps are the creation time. */
  function NewMessage(conversation: Id, sender: Id, content: Option<string>, attachments: seq<Attachment>, readBy: seq<Id>, now: int): (m: Message)
    ensures content.None? ==> m.content == ""
    ensures content.Some? ==> m.content == content.value
    ensures m.conversation == conversation && m.sender == sender
    ensures m.attachments == attachments && m.readBy == readBy
    ensures m.createdAt == now && m.updatedAt == now
  {
    Message(conversation, sender, if content.Some? then content.value else "", attachments, readBy, now, now)
  }

  /** A conversation as `Conversation.create` stores it: `lastMessage`
      starts out null, both timestamps are the creation time. */
  function NewConversation(isGroup: bool, name: Option<string>, participants: seq<Id>, lastMessageAt: Option<int>, now: int): (c: Conversation)
    ensures c.lastMessage == None
    ensures c.isGroup == isGroup && c.name == name && c.participants == participants
    ensures c.lastMessageAt == lastMessageAt && c.createdAt == now && c.updatedAt == now
  {
    Conversation(isGroup, name, participants, lastMessageAt, None, now, now)
  }

  /** The index on (participants, isGroup, lastMessageAt) only covers
      documents with `isGroup == false`; two such documents clash when their
      whole key is equal. */
  predicate Clashes(a: Conversation, b: Conversation) {
    !a.isGroup && !b.isGroup && a.participants == b.participants && a.lastMessageAt == b.lastMessageAt
  }

  /** The unique partial index holds over the whole collection. */
  predicate IndexHolds(convs: map<Id, Conversation>) {
    forall a, b :: a in convs && b in convs && a != b ==> !Clashes(convs[a], convs[b])
  }

  /** Writing `c` under `id` keeps the index: no other document clashes. */
  predicate Admits(convs: map<Id, Conversation>, id: Id, c: Conversation) {
    forall b :: b in convs && b != id ==> !Clashes(c, convs[b])
  }

  lemma {:induction false} AdmittedWriteKeepsIndex(convs: map<Id, Conversation>, id: Id, c: Conversation)
    requires IndexHolds(convs) && Admits(convs, id, c)
    ensures IndexHolds(convs[id := c])
  {
    var after := convs[id := c];
    forall a, b | a in after && b in after && a != b
      ensures !Clashes(after[a], after[b])
    {
      if a == id {
        assert !Clashes(c, convs[b]);
      } else if b == id {
        assert !Clashes(c, convs[a]);
      }
    }
  }

  /** Group conversations are exempt: any number of them may share
      participants and time. */
  lemma GroupsNeverClash(a: Conversation, b: Conversation)
    requires a.isGroup || b.isGroup
    ensures !Clashes(a, b)
  {
  }

  /** Because `lastMessageAt` is part of the key, the index does not stop two
      direct conversations between the same people. */
  lemma {:induction false} DirectDuplicatesAllowed(p: seq<Id>, t1: int, t2: int, now: int)
    requires t1 != t2
    ensures IndexHolds(map["a" := NewConversation(false, None, p, Some(t1), now),
                           "b" := NewConversation(false, None, p, Some(t2), now)])
  {
    var m := map["a" := NewConversation(false, None, p, Some(t1), now),
                 "b" := NewConversation(false, None, p, Some(t2), now)];
    assert m.Keys == {"a", "b"};
  }

  /** The `$addToSet`/`$push`-under-`$ne` update of every message of
      `conversation` that the user has not read: the user is appended to
      `readBy` and `updatedAt` is refreshed; nothing else changes. */
  function MarkedRead(msgs: map<Id, Message>, conversation: Id, user: Id, now: int): (r: map<Id, Message>)
    ensures r.Keys == msgs.Keys
    ensures forall id :: id in msgs && msgs[id].conversation != conversation ==> r[id] == msgs[id]
    ensures forall id :: id in msgs && msgs[id].conversation == conversation && user in msgs[id].readBy ==> r[id] == msgs[id]
    ensures forall id :: id in msgs && msgs[id].conversation == conversation && user !in msgs[id].readBy ==>
              r[id] == msgs[id].(readBy := msgs[id].readBy + [user], updatedAt := now)
  {
    map id | id in msgs ::
      if msgs[id].conversation == conversation && user !in msgs[id].readBy then
        msgs[id].(readBy := msgs[id].readBy + [user], updatedAt := now)
      else msgs[id]
  }

  /** Occurrences of `x` in a list. */
  function Count(xs: seq<Id>, x: Id): nat
    decreases |xs|
  {
    if xs == [] then 0 else (if xs[|xs| - 1] == x then 1 else 0) + Count(xs[..|xs| - 1], x)
  }

  lemma {:induction false} CountZero(xs: seq<Id>, x: Id)
    requires x !in xs
    ensures Count(xs, x) == 0
    decreases |xs|
  {
    if xs != [] {
      assert x !in xs[..|xs| - 1];
      CountZero(xs[..|xs| - 1], x);
    }
  }

  /** After marking, every message of the conversation lists the user, and
      one that did not list them lists them exactly once. */
  lemma {:induction false} MarkedReadOnce(msgs: map<Id, Message>, conversation: Id, user: Id, now: int, id: Id)
    requires id in msgs && msgs[id].conversation == conversation
    ensures user in MarkedRead(msgs, conversation, user, now)[id].readBy
    ensures user !in msgs[id].readBy ==> Count(MarkedRead(msgs, conversation, user, now)[id].readBy, user) == 1
  {
    if user !in msgs[id].readBy {
      var rb := msgs[id].readBy + [user];
      assert rb[..|rb| - 1] == msgs[id].readBy;
      CountZero(msgs[id].readBy, user);
    }
  }

  /** Marking twice is marking once: the second pass finds nothing unread. */
  lemma MarkedReadIdempotent(msgs: map<Id, Message>, conversation: Id, user: Id, t1: int, t2: int)
    ensures MarkedRead(MarkedRead(msgs, conversation, user, t1), conversation, user, t2) ==
            MarkedRead(msgs, conversation, user, t1)
  {
  }
}
