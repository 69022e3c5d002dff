/**
 * The join-chat screen: a user enters a group code and the group's password
 * and, when both check out and the user is not yet a member, is appended to
 * the group's member list.
 */
module JoinGroup {
  import opened Store

  const InvalidCode := "Invalid chat code"
  const IncorrectPassword := "Incorrect password"
  const AlreadyMember := "You are already a member of this chat"

  /**
   * `hits` is the snapshot of the query "groups whose code equals `code`": every
   * group with that code, each once, and nothing else. The order is the
   * database's; the handler uses whichever comes first.
   */
  predicate IsCodeQuery(groups: map<DocId, Group>, code: string, hits: seq<DocId>) {
    && NoDuplicates(hits)
    && (forall i :: 0 <= i < |hits| ==> hits[i] in groups && groups[hits[i]].code == code)
    && (forall id :: id in groups && groups[id].code == code ==> id in hits)
  }

  /**
   * The new member list written on a successful join: the old list followed by
   * the uid. It is one longer, keeps the old order, contains the uid, and stays
   * duplicate-free when the uid was not already a member.
   */
  function AppendMember(members: seq<Uid>, uid: Uid): (r: seq<Uid>)
    ensures |r| == |members| + 1
    ensures r[..|members|] == members && r[|members|] == uid
    ensures forall u :: u in r <==> u in members || u == uid
    ensures NoDuplicates(members) && uid !in members ==> NoDuplicates(r)
  {
    members + [uid]
  }

  /**
   * The password and membership checks on the matched group, in that order:
   * the first that fails decides the message, and the join goes ahead exactly
   * when the password matches and the uid is not yet a member.
   */
  function CheckGroup(g: Group, password: string, uid: Uid): (r: Option<string>)
    ensures r == None <==> g.password == password && uid !in g.members
    ensures r == Some(IncorrectPassword) <==> g.password != password
    ensures r == Some(AlreadyMember) <==> g.password == password && uid in g.members
  {
    if g.password != password then Some(IncorrectPassword)
    else if uid in g.members then Some(AlreadyMember)
    else None
  }

  /** Joining keeps every group's member list duplicate-free. */
  lemma JoinKeepsMembersDistinct(groups: map<DocId, Group>, id: DocId, uid: Uid)
    requires MembersDistinct(groups)
    requires id in groups && uid !in groups[id].members
    ensures MembersDistinct(groups[id := groups[id].(members := AppendMember(groups[id].members, uid))])
  {
  }

  /** The state of the join form. */
  class Form {
    const db: Database
    const uid: Uid
    var groupCode: string
    var password: string
    var error: string
    var loading: bool

    constructor (db: Database, uid: Uid)
      ensures this.db == db && this.uid == uid
      ensures groupCode == "" && password == "" && error == "" && !loading
    {
      this.db, this.uid := db, uid;
      groupCode, password, error, loading := "", "", "", false;
    }

    /** The code input's change handler. */
    method SetGroupCode(value: string)
      modifies this`groupCode
      ensures groupCode == value
    {
      groupCode := value;
    }

    /** The password input's change handler. */
    method SetPassword(value: string)
      modifies this`password
      ensures password == value
    {
      password := value;
    }

    /**
     * The submit handler. `query` is the outcome of fetching the groups whose
     * code is `groupCode`, `hits` their ids, and `update` the outcome of writing
     * the new member list. The checks run in the order code, password,
     * membership; the first that fails sets the error and the store is left as
     * it was. Only on success does the first matching group gain the uid.
     */
    method HandleSubmit(query: Reply, hits: seq<DocId>, update: Reply)
      requires query.Done? ==> IsCodeQuery(db.groups, groupCode, hits)
      modifies this`error, this`loading, db`groups
      ensures !loading
      ensures query.Rejected? ==> error == query.message && db.groups == old(db.groups)
      ensures query.Done? && hits == [] ==> error == InvalidCode && db.groups == old(db.groups)
      ensures query.Done? && hits != [] && old(db.groups[hits[0]]).password != password ==>
        error == IncorrectPassword && db.groups == old(db.groups)
      ensures (query.Done? && hits != [] && old(db.groups[hits[0]]).password == password
               && uid in old(db.groups[hits[0]]).members) ==>
        error == AlreadyMember && db.groups == old(db.groups)
      ensures (query.Done? && hits != [] && old(db.groups[hits[0]]).password == password
               && uid !in old(db.groups[hits[0]]).members) ==>
        if update.Rejected? then
          error == update.message && db.groups == old(db.groups)
        else
          var g := old(db.groups[hits[0]]);
          error == "" && db.groups == old(db.groups)[hits[0] := g.(members := AppendMember(g.members, uid))]
      ensures db.groups.Keys == old(db.groups.Keys)
      ensures forall id :: id in old(db.groups) && (query.Rejected? || hits == [] || id != hits[0]) ==>
        db.groups[id] == old(db.groups[id])
      ensures MembersDistinct(old(db.groups)) ==> MembersDistinct(db.groups)
    {
      error := "";
      loading := true;
      if query.Rejected? {
        error := query.message;
      } else if hits == [] {
        error := InvalidCode;
      } else {
        var id := hits[0];
        var g := db.groups[id];
        var refusal := CheckGroup(g, password, uid);
        if refusal.Some? {
          error := refusal.value;
        } else if update.Rejected? {
          error := update.message;
        } else {
          if MembersDistinct(db.groups) {
            JoinKeepsMembersDistinct(db.groups, id, uid);
          }
          db.groups := db.groups[id := g.(members := AppendMember(g.members, uid))];
        }
      }
      loading := false;
    }
  }

  /** When several groups share a code, the join is decided by the first in the snapshot. */
  lemma FirstMatchDecides(groups: map<DocId, Group>, code: string, hits: seq<DocId>)
    requires IsCodeQuery(groups, code, hits)
    ensures hits != [] <==> exists id :: id in groups && groups[id].code == code
    ensures hits != [] ==> hits[0] in groups && groups[hits[0]].code == code
  {
    if hits == [] {
      forall id | id in groups ensures groups[id].code != code { }
    } else {
      assert hits[0] in groups;
    }
  }
}
