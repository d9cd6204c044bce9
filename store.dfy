/** The document store: one finite map per collection, from document id to
    the stored record.  Each store call is one atomic step on these maps. */
module Store {
  import opened Common
  import opened UserModel
  import opened ChatModel
  import opened FriendModel
  import opened ProjectModel

  class Database {
    var users: map<Id, UserRecord>
    var conversations: map<Id, Conversation>
    var messages: map<Id, Message>
    var requests: map<Id, FriendRequest>
    var projects: map<Id, Project>

    /** The unique indexes the schemas declare: e-mail on users, the
        partial index on direct conversations, and (sender, receiver) on
        friend requests. */
    predicate Valid()
      reads this
    {
      UniqueEmails(users) && IndexHolds(conversations) && PairUnique(requests)
    }

    constructor ()
      ensures Valid()
      ensures users == map[] && conversations == map[] && messages == map[]
      ensures requests == map[] && projects == map[]
    {
      users, conversations, messages, requests, projects := map[], map[], map[], map[], map[];
    }
  }
}
