/**
 * The chat room: the live message list of one group, a cache of the senders'
 * profiles, the owner flag and the message input.
 */
module ChatRoom {
  import opened Store
  import opened Text

  const SendFailed := "Failed to send message"
  const GroupDeleted := "This group has been deleted by the owner"
  const LoadFailed := "Failed to load group"
  const UnknownUser := "Unknown User"

  /** A message in the list: its document id and its fields. */
  datatype Message = Message(id: DocId, data: MessageData)

  /**
   * The message list built from a snapshot of the messages query: one entry
   * per document, in snapshot order, each carrying its document id.
   */
  function FromSnapshot(docs: seq<(DocId, MessageData)>): (ms: seq<Message>)
    ensures |ms| == |docs|
    ensures forall i :: 0 <= i < |ms| ==> ms[i].id == docs[i].0 && ms[i].data == docs[i].1
  {
    seq(|docs|, i requires 0 <= i < |docs| => Message(docs[i].0, docs[i].1))
  }

  /** The sender uid of each message, in message order. */
  function Senders(ms: seq<Message>): (us: seq<Uid>)
    ensures |us| == |ms|
    ensures forall i :: 0 <= i < |ms| ==> us[i] == ms[i].data.uid
  {
    seq(|ms|, i requires 0 <= i < |ms| => ms[i].data.uid)
  }

  /**
   * The senders whose profiles the room fetches, in message order: the uid of
   * every message whose sender is not in the cache. A sender with several
   * messages is fetched once per message, because the cache is only updated
   * when a fetch completes.
   */
  function MissingUids(ms: seq<Message>, cache: map<Uid, UserDoc>): (us: seq<Uid>)
    ensures |us| <= |ms|
    ensures forall i :: 0 <= i < |us| ==> us[i] !in cache
    ensures forall u :: u in us <==> u !in cache && exists i :: 0 <= i < |ms| && ms[i].data.uid == u
  {
    if ms == [] then []
    else
      var rest := MissingUids(ms[..|ms| - 1], cache);
      var last := ms[|ms| - 1].data.uid;
      assert forall i :: 0 <= i < |ms| - 1 ==> ms[..|ms| - 1][i] == ms[i];
      if last in cache then rest else rest + [last]
  }

  /**
   * One fetch per message: an uncached sender is fetched as many times as it
   * has messages, and a cached one never.
   */
  lemma {:induction false} MissingUidsCounts(ms: seq<Message>, cache: map<Uid, UserDoc>, u: Uid)
    ensures multiset(MissingUids(ms, cache))[u] == if u in cache then 0 else multiset(Senders(ms))[u]
  {
    if ms != [] {
      var init := ms[..|ms| - 1];
      MissingUidsCounts(init, cache, u);
      SnocCounts(ms, cache, u);
    }
  }

  /** How the two counts grow with the last message. */
  lemma SnocCounts(ms: seq<Message>, cache: map<Uid, UserDoc>, u: Uid)
    requires ms != []
    ensures var last := ms[|ms| - 1].data.uid;
      && multiset(Senders(ms))[u] == multiset(Senders(ms[..|ms| - 1]))[u] + (if last == u then 1 else 0)
      && multiset(MissingUids(ms, cache))[u] == multiset(MissingUids(ms[..|ms| - 1], cache))[u]
           + (if last == u && last !in cache then 1 else 0)
  {
    var init, last := ms[..|ms| - 1], ms[|ms| - 1].data.uid;
    assert Senders(ms) == Senders(init) + [last];
    var rest := MissingUids(init, cache);
    if last !in cache {
      assert MissingUids(ms, cache) == rest + [last];
    }
  }

  /**
   * The name shown for a message: the cached profile's full name when the
   * sender is cached, otherwise the name stored in the message, otherwise
   * "Unknown User".
   */
  function DisplayName(cache: map<Uid, UserDoc>, m: Message): (name: string)
    ensures m.data.uid in cache ==> name == cache[m.data.uid].fullName
    ensures m.data.uid !in cache && m.data.userName != [] ==> name == m.data.userName
    ensures m.data.uid !in cache && m.data.userName == [] ==> name == UnknownUser
  {
    if m.data.uid in cache then cache[m.data.uid].fullName
    else if m.data.userName != [] then m.data.userName
    else UnknownUser
  }

  /**
   * The avatar text: the upper-cased first character of the name, or "?" when
   * the name is empty. With ASCII case conversion on whole characters, the
   * result is one character and never a lower-case letter.
   */
  function AvatarInitial(name: string): (a: string)
    ensures |a| == 1 && !IsLowerAscii(a[0])
    ensures name == [] ==> a == "?"
    ensures name != [] ==> LowerChar(a[0]) == LowerChar(name[0])
  {
    if name == [] then "?" else [UpperChar(name[0])]
  }

  /**
   * The avatar is "?" exactly when the display name is empty or itself starts
   * with '?'. An empty display name only comes from a cached profile whose full
   * name is empty; the fallbacks are never empty.
   */
  lemma AvatarUnknownOnlyFromCache(cache: map<Uid, UserDoc>, m: Message)
    ensures AvatarInitial(DisplayName(cache, m)) == "?" <==>
      (m.data.uid in cache && (cache[m.data.uid].fullName == [] || cache[m.data.uid].fullName[0] == '?'))
      || (m.data.uid !in cache && m.data.userName != [] && m.data.userName[0] == '?')
  {
  }

  /** The state of the chat room for the signed-in user on group `groupId`. */
  class Room {
    const db: Database
    const groupId: DocId
    const uid: Uid
    /** The signed-in user's profile, present whenever the room is shown. */
    const profile: UserDoc
    var messages: seq<Message>
    var newMessage: string
    var groupName: string
    var error: string
    var userProfiles: map<Uid, UserDoc>
    var isOwner: bool

    constructor (db: Database, groupId: DocId, uid: Uid, profile: UserDoc)
      ensures this.db == db && this.groupId == groupId && this.uid == uid && this.profile == profile
      ensures messages == [] && newMessage == "" && groupName == "" && error == ""
      ensures userProfiles == map[] && !isOwner
    {
      this.db, this.groupId, this.uid, this.profile := db, groupId, uid, profile;
      messages, newMessage, groupName, error := [], "", "", "";
      userProfiles, isOwner := map[], false;
    }

    /**
     * The group-details fetch. When the group exists, the room takes its name
     * and is the owner's exactly when the group was created by the signed-in
     * user; a missing group or a failed read only sets the error.
     */
    method LoadGroupDetails(read: Reply)
      modifies this`groupName, this`isOwner, this`error
      ensures read.Rejected? ==>
        error == LoadFailed && groupName == old(groupName) && isOwner == old(isOwner)
      ensures read.Done? && groupId !in db.groups ==>
        error == GroupDeleted && groupName == old(groupName) && isOwner == old(isOwner)
      ensures read.Done? && groupId in db.groups ==>
        && groupName == db.groups[groupId].name && error == old(error)
        && (isOwner <==> db.groups[groupId].createdBy == uid)
    {
      if read.Rejected? {
        error := LoadFailed;
      } else if groupId !in db.groups {
        error := GroupDeleted;
      } else {
        var g := db.groups[groupId];
        groupName := g.name;
        isOwner := g.createdBy == uid;
      }
    }

    /** A snapshot of the messages query replaces the whole list. */
    method OnMessagesSnapshot(docs: seq<(DocId, MessageData)>)
      modifies this`messages
      ensures messages == FromSnapshot(docs)
    {
      messages := FromSnapshot(docs);
    }

    /**
     * The loop over the messages that starts profile fetches: one per message
     * whose sender is not cached, in message order. It changes nothing itself.
     */
    method ProfilesToFetch() returns (fetches: seq<Uid>)
      ensures fetches == MissingUids(messages, userProfiles)
    {
      fetches := [];
      var i := 0;
      while i < |messages|
        invariant 0 <= i <= |messages|
        invariant fetches == MissingUids(messages[..i], userProfiles)
      {
        var u := messages[i].data.uid;
        assert messages[..i + 1][..i] == messages[..i];
        if u !in userProfiles {
          fetches := fetches + [u];
        }
        i := i + 1;
      }
      assert messages[..i] == messages;
    }

    /**
     * A completed profile fetch for `u`: when the read succeeds and the user
     * document exists, the cache gains (or refreshes) that one entry and every
     * other entry stays as it was.
     */
    method OnProfileFetched(u: Uid, read: Reply)
      modifies this`userProfiles
      ensures read.Done? && u in db.users ==> userProfiles == old(userProfiles)[u := db.users[u]]
      ensures read.Rejected? || u !in db.users ==> userProfiles == old(userProfiles)
      ensures forall v :: v in old(userProfiles) && v != u ==> v in userProfiles && userProfiles[v] == old(userProfiles[v])
    {
      if read.Done? && u in db.users {
        userProfiles := userProfiles[u := db.users[u]];
      }
    }

    /** The message input's change handler. */
    method SetNewMessage(value: string)
      modifies this`newMessage
      ensures newMessage == value
    {
      newMessage := value;
    }

    /**
     * The send handler. Text that is blank after trimming is not sent and
     * nothing changes. Otherwise the message records the text as typed, the
     * sender's uid and the sender's full name and username; the input is
     * cleared only when the write succeeds, and a failed write keeps the text
     * and sets the error.
     */
    method HandleSubmit(write: Reply)
      modifies this`newMessage, this`error, db`messages
      ensures IsBlank(old(newMessage)) ==>
        newMessage == old(newMessage) && error == old(error) && db.messages == old(db.messages)
      ensures !IsBlank(old(newMessage)) && write.Rejected? ==>
        newMessage == old(newMessage) && error == SendFailed && db.messages == old(db.messages)
      ensures !IsBlank(old(newMessage)) && write.Done? ==>
        && newMessage == "" && error == old(error)
        && db.messages == old(db.messages)[groupId := old(db.MessagesOf(groupId))
             + [MessageData(old(newMessage), uid, profile.fullName, profile.username)]]
    {
      if Trim(newMessage) == [] {
        return;
      }
      var data := MessageData(newMessage, uid, profile.fullName, profile.username);
      if write.Rejected? {
        error := SendFailed;
      } else {
        db.messages := db.messages[groupId := db.MessagesOf(groupId) + [data]];
        newMessage := "";
      }
    }
  }
}
