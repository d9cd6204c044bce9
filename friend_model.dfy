/** Friend requests (models/FriendRequest.ts): a directed request from a
    sender to a receiver that is pending until accepted. */
module FriendModel {
  import opened Common

  datatype RequestStatus = Pending | Accepted

  datatype FriendRequest = FriendRequest(
    sender: Id,
    receiver: Id,
    status: RequestStatus,
    createdAt: int,
    updatedAt: int)

  /** `new FriendRequest({ sender, receiver })`: the status takes its
      default, pending, and both timestamps are the creation time. */
  function NewRequest(sender: Id, receiver: Id, now: int): (r: FriendRequest)
    ensures r.status == Pending
    ensures r.sender == sender && r.receiver == receiver
    ensures r.createdAt == now && r.updatedAt == now
  {
    FriendRequest(sender, receiver, Pending, now, now)
  }

  /** Both references present and castable. */
  predicate RequestValid(r: FriendRequest) {
    IsObjectId(r.sender) && IsObjectId(r.receiver)
  }

  /** The unique index on (sender, receiver): one request per ordered pair. */
  predicate PairUnique(reqs: map<Id, FriendRequest>) {
    forall a, b :: a in reqs && b in reqs && a != b ==>
      (reqs[a].sender, reqs[a].receiver) != (reqs[b].sender, reqs[b].receiver)
  }

  /** Some request links the two users, in either direction, whatever its
      status. */
  predicate Linked(reqs: map<Id, FriendRequest>, x: Id, y: Id) {
    exists id :: id in reqs &&
      ((reqs[id].sender == x && reqs[id].receiver == y) || (reqs[id].sender == y && reqs[id].receiver == x))
  }

  /** The stronger invariant the request route maintains: no self-requests,
      and at most one request per unordered pair. */
  predicate OnePerPair(reqs: map<Id, FriendRequest>) {
    && (forall a :: a in reqs ==> reqs[a].sender != reqs[a].receiver)
    && (forall a, b :: a in reqs && b in reqs && a != b ==>
          !({reqs[a].sender, reqs[a].receiver} == {reqs[b].sender, reqs[b].receiver}))
  }

  lemma {:induction false} OnePerPairImpliesPairUnique(reqs: map<Id, FriendRequest>)
    requires OnePerPair(reqs)
    ensures PairUnique(reqs)
  {
    forall a, b | a in reqs && b in reqs && a != b
      ensures (reqs[a].sender, reqs[a].receiver) != (reqs[b].sender, reqs[b].receiver)
    {
      assert {reqs[a].sender, reqs[a].receiver} != {reqs[b].sender, reqs[b].receiver};
    }
  }

  /** Adding a request between two distinct, unlinked users keeps the
      invariant. */
  lemma {:induction false} AddUnlinkedKeepsOnePerPair(reqs: map<Id, FriendRequest>, id: Id, r: FriendRequest)
    requires OnePerPair(reqs) && id !in reqs
    requires r.sender != r.receiver && !Linked(reqs, r.sender, r.receiver)
    ensures OnePerPair(reqs[id := r])
  {
    var after := reqs[id := r];
    forall a, b | a in after && b in after && a != b
      ensures !({after[a].sender, after[a].receiver} == {after[b].sender, after[b].receiver})
    {
      if a == id || b == id {
        var other := if a == id then b else a;
        assert other in reqs;
      }
    }
  }
}
