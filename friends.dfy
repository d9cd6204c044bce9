/** The friend-request routes under /api/friends: sending, accepting and
    rejecting a request, and the three list views.  Every route runs inside
    the secure wrapper, which answers an exception with 500 "Internal
    error"; here that is the answer whenever a query casts an id that is
    not an ObjectId. */
module Friends {
  import opened Common
  import opened UserModel
  import opened FriendModel
  import opened Store

  const WrapperError := "Internal error"

  /** Some request from `sender` to `receiver` is still pending. */
  predicate PendingFrom(reqs: map<Id, FriendRequest>, sender: Id, receiver: Id) {
    exists id :: id in reqs && reqs[id].sender == sender && reqs[id].receiver == receiver && reqs[id].status == Pending
  }

  // The error messages of the request routes.
  const NoReceiver := "User not authenticated or receiver missing"
  const SelfRequest := "You cannot send a request to yourself"
  const NoSender := "User not authenticated or sender missing"
  const NotPending := "Friend request not found or already handled"

  /** POST /api/friends/request. */
  method SendRequest(db: Database, caller: Option<Id>, receiverId: Option<string>, now: int, newId: Id)
    returns (r: Response<()>)
    requires db.Valid() && newId !in db.requests
    modifies db
    ensures db.Valid()
    ensures db.users == old(db.users) && db.conversations == old(db.conversations)
    ensures db.messages == old(db.messages) && db.projects == old(db.projects)
    ensures caller.None? || !Present(receiverId) ==>
              r == Err(400, NoReceiver) && db.requests == old(db.requests)
    ensures caller.Some? && Present(receiverId) && caller.value == receiverId.value ==>
              r == Err(400, SelfRequest) && db.requests == old(db.requests)
    ensures caller.Some? && Present(receiverId) && caller.value != receiverId.value ==>
              if !IsObjectId(caller.value) || !IsObjectId(receiverId.value) then
                r == Err(500, WrapperError) && db.requests == old(db.requests)
              else if Linked(old(db.requests), caller.value, receiverId.value) then
                r == Err(400, "Friend request already exists") && db.requests == old(db.requests)
              else
                r == Ok(200, ()) && db.requests == old(db.requests)[newId := NewRequest(caller.value, receiverId.value, now)]
    ensures OnePerPair(old(db.requests)) ==> OnePerPair(db.requests)
  {
    if caller.None? || !Present(receiverId) {
      return Err(400, NoReceiver);
    }
    var sender, receiver := caller.value, receiverId.value;
    if sender == receiver {
      return Err(400, SelfRequest);
    }
    if !IsObjectId(sender) || !IsObjectId(receiver) {
      return Err(500, WrapperError);
    }
    if Linked(db.requests, sender, receiver) {
      return Err(400, "Friend request already exists");
    }
    var req := NewRequest(sender, receiver, now);
    assert PairUnique(db.requests[newId := req]) by {
      forall a | a in db.requests ensures (db.requests[a].sender, db.requests[a].receiver) != (sender, receiver) {
      }
    }
    if OnePerPair(db.requests) {
      AddUnlinkedKeepsOnePerPair(db.requests, newId, req);
    }
    db.requests := db.requests[newId := req];
    return Ok(200, ());
  }

  /** `$addToSet`: the value is appended unless already present. */
  function AddToSet(xs: seq<Id>, x: Id): (r: seq<Id>)
    ensures x in r && forall y :: y in r <==> y in xs || y == x
    ensures Distinct(xs) ==> Distinct(r)
    ensures x in xs ==> r == xs
  {
    if x in xs then xs else xs + [x]
  }

  /** `findByIdAndUpdate(id, { $addToSet: { friends: friend } })`: a
      missing user is not an error and changes nothing. */
  function Befriend(users: map<Id, UserRecord>, id: Id, friend: Id): (r: map<Id, UserRecord>)
    ensures r.Keys == users.Keys
    ensures forall u :: u in users && u != id ==> r[u] == users[u]
    ensures id in users ==> r[id] == users[id].(friends := AddToSet(users[id].friends, friend))
  {
    if id in users then users[id := users[id].(friends := AddToSet(users[id].friends, friend))] else users
  }

  /** `findByIdAndUpdate(id, { $addToSet: { friends: friend } })` as the
      strict user schema runs it: `friends` is not a declared path, so the
      update is cast away and no user changes. */
  function BefriendAsWritten(users: map<Id, UserRecord>, id: Id, friend: Id): (r: map<Id, UserRecord>)
    ensures r == users
  {
    if "friends" in UserPaths then Befriend(users, id, friend) else users
  }

  /** As written, accepting lists nobody as a friend: a user who did not
      list the other before does not list them afterwards. */
  lemma AcceptAsWrittenAddsNoFriend(users: map<Id, UserRecord>, sender: Id, receiver: Id)
    requires sender in users && receiver !in users[sender].friends
    ensures var after := BefriendAsWritten(BefriendAsWritten(users, sender, receiver), receiver, sender);
            sender in after && receiver !in after[sender].friends
  {
  }

  /** PATCH /api/friends/accept as written: only a pending request from
      `senderId` to the caller is accepted; the two friend-list updates
      that follow are cast away, so no user changes. */
  method Accept(db: Database, caller: Option<Id>, senderId: Option<string>, now: int) returns (r: Response<()>)
    requires db.Valid()
    modifies db
    ensures db.Valid()
    ensures db.conversations == old(db.conversations) && db.messages == old(db.messages) && db.projects == old(db.projects)
    ensures db.users == old(db.users)
    ensures caller.None? || !Present(senderId) ==>
              r == Err(400, NoSender) && unchanged(db)
    ensures caller.Some? && Present(senderId) && !(IsObjectId(senderId.value) && IsObjectId(caller.value)) ==>
              r == Err(500, WrapperError) && unchanged(db)
    ensures caller.Some? && Present(senderId) && IsObjectId(senderId.value) && IsObjectId(caller.value) ==>
              if !PendingFrom(old(db.requests), senderId.value, caller.value) then
                r == Err(404, "Friend request not found") && unchanged(db)
              else
                && r == Ok(200, ())
                && db.requests.Keys == old(db.requests.Keys)
                && (forall id :: id in db.requests ==>
                      if old(db.requests)[id].sender == senderId.value && old(db.requests)[id].receiver == caller.value
                      then db.requests[id] == old(db.requests)[id].(status := Accepted, updatedAt := now)
                      else db.requests[id] == old(db.requests)[id])
  {
    if caller.None? || !Present(senderId) {
      return Err(400, NoSender);
    }
    var sender, receiver := senderId.value, caller.value;
    if !IsObjectId(sender) || !IsObjectId(receiver) {
      return Err(500, WrapperError);
    }
    if !PendingFrom(db.requests, sender, receiver) {
      return Err(404, "Friend request not found");
    }
    var id :| id in db.requests && db.requests[id].sender == sender && db.requests[id].receiver == receiver &&
              db.requests[id].status == Pending;
    db.requests := db.requests[id := db.requests[id].(status := Accepted, updatedAt := now)];
    db.users := BefriendAsWritten(db.users, sender, receiver);
    db.users := BefriendAsWritten(db.users, receiver, sender);
    return Ok(200, ());
  }

  /** The same route with `friends` declared: after the request is
      accepted, each of the two users lists the other as a friend, once. */
  method AcceptCorrected(db: Database, caller: Option<Id>, senderId: Option<string>, now: int) returns (r: Response<()>)
    requires db.Valid()
    modifies db
    ensures db.Valid()
    ensures db.conversations == old(db.conversations) && db.messages == old(db.messages) && db.projects == old(db.projects)
    ensures caller.None? || !Present(senderId) ==>
              r == Err(400, NoSender) && unchanged(db)
    ensures caller.Some? && Present(senderId) && !(IsObjectId(senderId.value) && IsObjectId(caller.value)) ==>
              r == Err(500, WrapperError) && unchanged(db)
    ensures caller.Some? && Present(senderId) && IsObjectId(senderId.value) && IsObjectId(caller.value) ==>
              if !PendingFrom(old(db.requests), senderId.value, caller.value) then
                r == Err(404, "Friend request not found") && unchanged(db)
              else
                && r == Ok(200, ())
                && db.requests.Keys == old(db.requests.Keys)
                && (forall id :: id in db.requests ==>
                      if old(db.requests)[id].sender == senderId.value && old(db.requests)[id].receiver == caller.value
                      then db.requests[id] == old(db.requests)[id].(status := Accepted, updatedAt := now)
                      else db.requests[id] == old(db.requests)[id])
                && db.users == Befriend(Befriend(old(db.users), senderId.value, caller.value), caller.value, senderId.value)
  {
    r := Accept(db, caller, senderId, now);
    if r.Ok? {
      db.users := Befriend(db.users, senderId.value, caller.value);
      db.users := Befriend(db.users, caller.value, senderId.value);
    }
  }

  /** Accepting leaves both users, when they exist, listing each other. */
  lemma AcceptMakesFriendsBothWays(users: map<Id, UserRecord>, sender: Id, receiver: Id)
    requires sender in users && receiver in users
    ensures receiver in Befriend(Befriend(users, sender, receiver), receiver, sender)[sender].friends
    ensures sender in Befriend(Befriend(users, sender, receiver), receiver, sender)[receiver].friends
  {
  }

  /** Accepting again adds nobody twice: friend lists without repeats stay
      without repeats. */
  lemma {:induction false} AcceptKeepsFriendsDistinct(users: map<Id, UserRecord>, sender: Id, receiver: Id)
    requires forall u :: u in users ==> Distinct(users[u].friends)
    ensures var after := Befriend(Befriend(users, sender, receiver), receiver, sender);
            forall u :: u in after ==> Distinct(after[u].friends)
  {
    var mid := Befriend(users, sender, receiver);
    assert forall u :: u in mid ==> Distinct(mid[u].friends);
  }

  /** An accepted request is no longer pending, so a second accept of the
      same pair finds nothing. */
  lemma {:induction false} SecondAcceptNotFound(reqs: map<Id, FriendRequest>, id: Id, now: int)
    requires PairUnique(reqs) && id in reqs
    ensures !PendingFrom(reqs[id := reqs[id].(status := Accepted, updatedAt := now)], reqs[id].sender, reqs[id].receiver)
  {
    forall other | other in reqs && other != id
      ensures (reqs[other].sender, reqs[other].receiver) != (reqs[id].sender, reqs[id].receiver)
    {
    }
  }

  /** PATCH /api/friends/reject: deletes the pending request from
      `senderId` to the caller and nothing else. */
  method Reject(db: Database, caller: Option<Id>, senderId: Option<string>) returns (r: Response<()>)
    requires db.Valid()
    modifies db
    ensures db.Valid()
    ensures db.users == old(db.users) && db.conversations == old(db.conversations)
    ensures db.messages == old(db.messages) && db.projects == old(db.projects)
    ensures caller.None? || !Present(senderId) ==>
              r == Err(400, "Sender ID is required") && db.requests == old(db.requests)
    ensures caller.Some? && Present(senderId) && !(IsObjectId(senderId.value) && IsObjectId(caller.value)) ==>
              r == Err(500, WrapperError) && db.requests == old(db.requests)
    ensures caller.Some? && Present(senderId) && IsObjectId(senderId.value) && IsObjectId(caller.value) ==>
              if !PendingFrom(old(db.requests), senderId.value, caller.value) then
                r == Err(404, NotPending) && db.requests == old(db.requests)
              else
                && r == Ok(200, ())
                && exists id :: id in old(db.requests) && old(db.requests)[id].sender == senderId.value &&
                                old(db.requests)[id].receiver == caller.value && old(db.requests)[id].status == Pending &&
                                db.requests == old(db.requests) - {id}
    ensures OnePerPair(old(db.requests)) ==> OnePerPair(db.requests)
  {
    if caller.None? || !Present(senderId) {
      return Err(400, "Sender ID is required");
    }
    var sender, receiver := senderId.value, caller.value;
    if !IsObjectId(sender) || !IsObjectId(receiver) {
      return Err(500, WrapperError);
    }
    if !PendingFrom(db.requests, sender, receiver) {
      return Err(404, NotPending);
    }
    var id :| id in db.requests && db.requests[id].sender == sender && db.requests[id].receiver == receiver &&
              db.requests[id].status == Pending;
    db.requests := db.requests - {id};
    return Ok(200, ());
  }

  /** Once its only request is rejected, the pair may send a new one. */
  lemma {:induction false} RejectReopensPair(reqs: map<Id, FriendRequest>, id: Id)
    requires OnePerPair(reqs) && id in reqs
    ensures !Linked(reqs - {id}, reqs[id].sender, reqs[id].receiver)
  {
    var x, y := reqs[id].sender, reqs[id].receiver;
    forall other | other in reqs - {id}
      ensures !((reqs[other].sender == x && reqs[other].receiver == y) || (reqs[other].sender == y && reqs[other].receiver == x))
    {
      assert {reqs[other].sender, reqs[other].receiver} != {x, y};
    }
  }

  /** The accepted requests the user takes part in. */
  function AcceptedWith(reqs: map<Id, FriendRequest>, user: Id): (r: set<Id>)
    ensures forall id :: id in r <==> id in reqs && reqs[id].status == Accepted &&
                                      (reqs[id].sender == user || reqs[id].receiver == user)
  {
    set id | id in reqs && reqs[id].status == Accepted && (reqs[id].sender == user || reqs[id].receiver == user)
  }

  /** The other party of a request after populating both ends: the
      receiver when the caller sent it, else the sender; a populated user
      that is gone shows as null (`None`). */
  function OtherParty(req: FriendRequest, users: map<Id, UserRecord>, user: Id): (r: Option<Id>)
    requires req.sender in users
    ensures req.sender == user ==> r == (if req.receiver in users then Some(req.receiver) else None)
    ensures req.sender != user ==> r == Some(req.sender)
  {
    if req.sender == user then (if req.receiver in users then Some(req.receiver) else None) else Some(req.sender)
  }

  /** GET /api/friends/list: the other party of every accepted request of
      the caller, in the store's order (`order` lists the requests).  A
      request whose sender's user is gone makes the handler dereference
      null, which the wrapper turns into 500. */
  method ListFriends(reqs: map<Id, FriendRequest>, users: map<Id, UserRecord>, caller: Option<Id>)
    returns (r: Response<seq<Option<Id>>>, ghost order: seq<Id>)
    ensures caller.None? ==> r == Err(401, "User not authenticated")
    ensures caller.Some? && !IsObjectId(caller.value) ==> r == Err(500, WrapperError)
    ensures caller.Some? && IsObjectId(caller.value) ==>
              var mine := AcceptedWith(reqs, caller.value);
              if exists id :: id in mine && reqs[id].sender !in users then r == Err(500, WrapperError)
              else
                && r.Ok? && r.status == 200
                && ListsExactly(order, mine) && |r.body| == |order|
                && forall i :: 0 <= i < |order| ==> r.body[i] == OtherParty(reqs[order[i]], users, caller.value)
    ensures caller.Some? && r.Ok? && OnePerPair(reqs) ==> forall i :: 0 <= i < |r.body| ==> r.body[i] != Some(caller.value)
  {
    order := [];
    if caller.None? {
      return Err(401, "User not authenticated"), order;
    }
    var user := caller.value;
    if !IsObjectId(user) {
      return Err(500, WrapperError), order;
    }
    var mine := AcceptedWith(reqs, user);
    var ids := Enumerate(mine);
    order := ids;
    var friends: seq<Option<Id>> := [];
    var i := 0;
    while i < |ids|
      invariant 0 <= i <= |ids| && |friends| == i
      invariant forall k :: 0 <= k < i ==> reqs[ids[k]].sender in users && friends[k] == OtherParty(reqs[ids[k]], users, user)
    {
      var req := reqs[ids[i]];
      if req.sender !in users {
        return Err(500, WrapperError), order;
      }
      friends := friends + [OtherParty(req, users, user)];
      i := i + 1;
    }
    return Ok(200, friends), order;
  }

  /** The requests waiting for the user's answer. */
  function PendingFor(reqs: map<Id, FriendRequest>, user: Id): (r: set<Id>)
    ensures forall id :: id in r <==> id in reqs && reqs[id].receiver == user && reqs[id].status == Pending
  {
    set id | id in reqs && reqs[id].receiver == user && reqs[id].status == Pending
  }

  /** A request's sort timestamp. */
  function RequestTime(r: FriendRequest): int {
    r.createdAt
  }

  /** GET /api/friends/list-reqs: the caller's incoming pending requests,
      newest first. */
  method ListIncoming(reqs: map<Id, FriendRequest>, caller: Option<Id>) returns (r: Response<seq<Id>>)
    ensures caller.None? ==> r == Err(401, "User not authenticated")
    ensures caller.Some? && !IsObjectId(caller.value) ==> r == Err(500, WrapperError)
    ensures caller.Some? && IsObjectId(caller.value) ==>
              && r.Ok? && r.status == 200
              && ListsExactly(r.body, PendingFor(reqs, caller.value))
              && InOrder(r.body, SortKey(reqs, PendingFor(reqs, caller.value), RequestTime), true)
  {
    if caller.None? {
      return Err(401, "User not authenticated");
    }
    if !IsObjectId(caller.value) {
      return Err(500, WrapperError);
    }
    var ids := SortedKeys(SortKey(reqs, PendingFor(reqs, caller.value), RequestTime), true);
    return Ok(200, ids);
  }

  /** GET /api/friends/pending: the same requests, in no particular order. */
  method ListPending(reqs: map<Id, FriendRequest>, caller: Option<Id>) returns (r: Response<seq<Id>>)
    ensures caller.None? ==> r == Err(401, "User not authenticated")
    ensures caller.Some? && !IsObjectId(caller.value) ==> r == Err(500, WrapperError)
    ensures caller.Some? && IsObjectId(caller.value) ==>
              r.Ok? && r.status == 200 && ListsExactly(r.body, PendingFor(reqs, caller.value))
  {
    if caller.None? {
      return Err(401, "User not authenticated");
    }
    if !IsObjectId(caller.value) {
      return Err(500, WrapperError);
    }
    var ids := Enumerate(PendingFor(reqs, caller.value));
    return Ok(200, ids);
  }
}
