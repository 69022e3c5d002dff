/**
 * The hosted document database, seen as an in-memory store. Each collection
 * the screens use is a map from document id to record:
 *   groups/{id}             a chat group
 *   users/{uid}             a user profile
 *   usernames/{username}    the reservation of a username (holds the owner's uid)
 *   groups/{id}/messages    the messages of a group, in creation order
 * Server timestamps are not modelled.
 */
module Store {

  type Uid = string
  type DocId = string

  datatype Option<T> = None | Some(value: T)

  /** The outcome of one remote call: it completes, or it rejects with an error message. */
  datatype Reply = Done | Rejected(message: string)

  /** A chat group: name, plaintext password, numeric code, owner and ordered member list. */
  datatype Group = Group(name: string, password: string, code: string, createdBy: Uid, members: seq<Uid>)

  /** A user profile document. */
  datatype UserDoc = UserDoc(fullName: string, username: string, email: string)

  /** The fields of a message document written by the chat room. */
  datatype MessageData = MessageData(text: string, uid: Uid, userName: string, userUsername: string)

  /** A list without repeated elements. */
  predicate NoDuplicates<T(==)>(s: seq<T>) {
    forall i, j :: 0 <= i < j < |s| ==> s[i] != s[j]
  }

  /** Every group's member list is duplicate-free. */
  predicate MembersDistinct(groups: map<DocId, Group>) {
    forall id :: id in groups ==> NoDuplicates(groups[id].members)
  }

  /** Five decimal digits: the format the join form's code input asks for. */
  predicate IsGroupCode(s: string) {
    |s| == 5 && forall i :: 0 <= i < |s| ==> '0' <= s[i] <= '9'
  }

  class Database {
    var groups: map<DocId, Group>
    var users: map<Uid, UserDoc>
    var usernames: map<string, Uid>
    var messages: map<DocId, seq<MessageData>>

    constructor ()
      ensures groups == map[] && users == map[] && usernames == map[] && messages == map[]
    {
      groups, users, usernames, messages := map[], map[], map[], map[];
    }

    /** The messages of group `id`; an absent sub-collection reads as empty. */
    function MessagesOf(id: DocId): (ms: seq<MessageData>)
      reads this
      ensures id !in messages ==> ms == []
    {
      if id in messages then messages[id] else []
    }
  }
}
