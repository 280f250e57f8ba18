/**
 * Chat sessions (sessionServiceImpl): who may open a session with whom,
 * opening one, and the owner's user and group session lists.
 *
 * A session row is one direction of a conversation, stored under its
 * (sender, receiver) pair. The repositories the service reads (groups,
 * contact rows, user briefs) form a `Directory` value; the session store is
 * the one thing OpenSession changes. Times are plain integers; their
 * RFC 3339 formatting is not modelled.
 */
module SessionService {
  import opened Common
  import opened GoStrings
  import CS = ContactService

  /** A stored session row. `lastMessageAt` is None while no message was sent. */
  datatype Session = Session(uuid: string, sendId: string, receiveId: string, receiveName: string,
                             avatar: string, lastMessage: string, createdAt: int, lastMessageAt: Option<int>)

  /** One entry of a session list, or the session OpenSession returns. */
  datatype SessionItem = SessionItem(sessionId: string, sendId: string, receiveId: string,
                                     peerId: string, peerType: string, peerName: string,
                                     peerAvatar: string, lastMsg: string, unreadCount: int, updatedAt: int)

  /** A session whose receiver is a group or a user: "G" for ids starting with 'G', "U" otherwise. */
  function PeerTypeOf(id: string): (t: string)
    ensures t == "G" <==> |id| > 0 && id[0] == 'G'
    ensures t != "G" ==> t == "U"
  {
    if HasPrefix(id, "G") then "G" else "U"
  }

  /** The time a session was last active: its last message, else its creation. */
  function UpdatedAt(s: Session): int
  {
    match s.lastMessageAt
    case Some(t) => t
    case None => s.createdAt
  }

  /** The item toSessionItem builds for the session `s` between `sendId` and `receiveId`. */
  function ToItem(sendId: string, receiveId: string, s: Session): SessionItem
  {
    SessionItem(s.uuid, sendId, receiveId, receiveId, PeerTypeOf(receiveId), s.receiveName,
                s.avatar, s.lastMessage, 0, UpdatedAt(s))
  }

  // ---------------------------------------------------------------------
  // Session lists
  // ---------------------------------------------------------------------

  /** A list entry: the peer is the session's receiver, sender and receiver fields stay empty. */
  function ListItem(s: Session, peerType: string): SessionItem
  {
    SessionItem(s.uuid, "", "", s.receiveId, peerType, s.receiveName, s.avatar, s.lastMessage, 0, UpdatedAt(s))
  }

  /** The user session list: one entry per session, in order. */
  function UserItems(ss: seq<Session>): (r: seq<SessionItem>)
    ensures |r| == |ss|
    ensures forall i :: 0 <= i < |ss| ==>
      && r[i].sessionId == ss[i].uuid
      && r[i].peerId == ss[i].receiveId
      && r[i].peerType == PeerTypeOf(ss[i].receiveId)
      && r[i].peerName == ss[i].receiveName
      && r[i].peerAvatar == ss[i].avatar
      && r[i].lastMsg == ss[i].lastMessage
      && r[i].unreadCount == 0
      && r[i].updatedAt == (if ss[i].lastMessageAt.Some? then ss[i].lastMessageAt.value else ss[i].createdAt)
  {
    if |ss| == 0 then []
    else
      var s := ss[|ss| - 1];
      UserItems(ss[..|ss| - 1]) + [ListItem(s, PeerTypeOf(s.receiveId))]
  }

  /** GetUserSessionList: an empty owner is a parameter error, a failed read a server error. */
  function UserSessionListSpec(ownerId: string, sessions: seq<Session>, listErr: bool): Result<seq<SessionItem>>
  {
    if ownerId == [] then Err(ErrParam)
    else if listErr then Err(ErrServerError)
    else Ok(UserItems(sessions))
  }

  method GetUserSessionList(ownerId: string, sessions: seq<Session>, listErr: bool)
    returns (r: Result<seq<SessionItem>>)
    ensures r == UserSessionListSpec(ownerId, sessions, listErr)
  {
    if ownerId == [] {
      return Err(ErrParam);
    }
    if listErr {
      return Err(ErrServerError);
    }
    var out: seq<SessionItem> := [];
    var i := 0;
    while i < |sessions|
      invariant 0 <= i <= |sessions|
      invariant out == UserItems(sessions[..i])
    {
      var s := sessions[i];
      assert sessions[..i + 1][..i] == sessions[..i];
      out := out + [ListItem(s, PeerTypeOf(s.receiveId))];
      i := i + 1;
    }
    assert sessions[..i] == sessions;
    return Ok(out);
  }

  /** A contact row naming a group the owner is still in: type 1, status 0 or 5, non-empty id. */
  predicate ActiveGroupRow(c: CS.ContactRow)
  {
    c.contactType == 1 && (c.status == 0 || c.status == 5) && c.contactId != []
  }

  /** The groups the owner is active in, by definition over all rows. */
  function ActiveGroups(cs: seq<CS.ContactRow>): set<string>
  {
    set c | c in cs && ActiveGroupRow(c) :: c.contactId
  }

  lemma ActiveGroupsSnoc(cs: seq<CS.ContactRow>, c: CS.ContactRow)
    ensures ActiveGroups(cs + [c]) == ActiveGroups(cs) + (if ActiveGroupRow(c) then {c.contactId} else {})
  {
    var lhs := ActiveGroups(cs + [c]);
    var rhs := ActiveGroups(cs) + (if ActiveGroupRow(c) then {c.contactId} else {});
    forall g | g in lhs
      ensures g in rhs
    {
      var d :| d in cs + [c] && ActiveGroupRow(d) && d.contactId == g;
      if d != c {
        assert d in cs;
      }
    }
    forall g | g in rhs
      ensures g in lhs
    {
      if g in ActiveGroups(cs) {
        var d :| d in cs && ActiveGroupRow(d) && d.contactId == g;
        assert d in cs + [c];
      } else {
        assert c in cs + [c];
      }
    }
  }

  /** A session kept by the group list: a 'G' receiver the owner is active in. */
  predicate KeepGroupSession(s: Session, active: set<string>)
  {
    HasPrefix(s.receiveId, "G") && s.receiveId in active
  }

  /** The group session list: the kept sessions, in order, typed "G". */
  function GroupItems(ss: seq<Session>, active: set<string>): (r: seq<SessionItem>)
    ensures |r| <= |ss|
    ensures forall x :: x in r ==>
      x.peerType == "G" && HasPrefix(x.peerId, "G") && x.peerId in active && x.unreadCount == 0
  {
    if |ss| == 0 then []
    else
      var s := ss[|ss| - 1];
      var rest := GroupItems(ss[..|ss| - 1], active);
      if KeepGroupSession(s, active) then rest + [ListItem(s, "G")] else rest
  }

  /** Every kept session shows up in the group list. */
  lemma {:induction false} GroupItemsComplete(ss: seq<Session>, active: set<string>, i: int)
    requires 0 <= i < |ss| && KeepGroupSession(ss[i], active)
    ensures ListItem(ss[i], "G") in GroupItems(ss, active)
  {
    var n := |ss| - 1;
    if i < n {
      assert ss[..n][i] == ss[i];
      GroupItemsComplete(ss[..n], active, i);
    }
  }

  /** GetGroupSessionList over the session and contact reads and their failures. */
  function GroupSessionListSpec(ownerId: string, sessions: seq<Session>, sessionsErr: bool,
                                contacts: seq<CS.ContactRow>, contactsErr: bool): Result<seq<SessionItem>>
  {
    if ownerId == [] then Err(ErrParam)
    else if sessionsErr || contactsErr then Err(ErrServerError)
    else Ok(GroupItems(sessions, ActiveGroups(contacts)))
  }

  /**
   * The group session list shows exactly the 'G' sessions of groups the owner
   * has an active membership row for.
   */
  lemma GroupSessionListExact(ownerId: string, sessions: seq<Session>, contacts: seq<CS.ContactRow>)
    requires ownerId != []
    ensures var r := GroupSessionListSpec(ownerId, sessions, false, contacts, false);
      && r.Ok?
      && (forall x :: x in r.value ==>
            x.peerType == "G" && HasPrefix(x.peerId, "G") &&
            exists c :: c in contacts && c.contactType == 1 && (c.status == 0 || c.status == 5) && c.contactId == x.peerId)
      && (forall i :: 0 <= i < |sessions| && HasPrefix(sessions[i].receiveId, "G") && sessions[i].receiveId in ActiveGroups(contacts) ==>
            ListItem(sessions[i], "G") in r.value)
  {
    var active := ActiveGroups(contacts);
    var items := GroupItems(sessions, active);
    forall x | x in items
      ensures exists c :: c in contacts && c.contactType == 1 && (c.status == 0 || c.status == 5) && c.contactId == x.peerId
    {
      var c :| c in contacts && ActiveGroupRow(c) && c.contactId == x.peerId;
    }
    forall i | 0 <= i < |sessions| && HasPrefix(sessions[i].receiveId, "G") && sessions[i].receiveId in active
      ensures ListItem(sessions[i], "G") in items
    {
      GroupItemsComplete(sessions, active, i);
    }
  }

  /** The activeGroups loop over the owner's contact rows. */
  method CollectActiveGroups(contacts: seq<CS.ContactRow>) returns (active: set<string>)
    ensures active == ActiveGroups(contacts)
  {
    active := {};
    var i := 0;
    while i < |contacts|
      invariant 0 <= i <= |contacts|
      invariant active == ActiveGroups(contacts[..i])
    {
      var c := contacts[i];
      assert contacts[..i + 1] == contacts[..i] + [c];
      ActiveGroupsSnoc(contacts[..i], c);
      if c.contactType == 1 && (c.status == 0 || c.status == 5) && c.contactId != [] {
        active := active + {c.contactId};
      }
      i := i + 1;
    }
    assert contacts[..i] == contacts;
  }

  method GetGroupSessionList(ownerId: string, sessions: seq<Session>, sessionsErr: bool,
                             contacts: seq<CS.ContactRow>, contactsErr: bool)
    returns (r: Result<seq<SessionItem>>)
    ensures r == GroupSessionListSpec(ownerId, sessions, sessionsErr, contacts, contactsErr)
  {
    if ownerId == [] {
      return Err(ErrParam);
    }
    if sessionsErr || contactsErr {
      return Err(ErrServerError);
    }
    var active := CollectActiveGroups(contacts);
    var out: seq<SessionItem> := [];
    var i := 0;
    while i < |sessions|
      invariant 0 <= i <= |sessions|
      invariant out == GroupItems(sessions[..i], active)
    {
      var s := sessions[i];
      assert sessions[..i + 1][..i] == sessions[..i];
      if HasPrefix(s.receiveId, "G") && s.receiveId in active {
        out := out + [ListItem(s, "G")];
      }
      i := i + 1;
    }
    assert sessions[..i] == sessions;
    return Ok(out);
  }

  // ---------------------------------------------------------------------
  // checkAllowed
  // ---------------------------------------------------------------------

  /** What the group repository knows of a group. */
  datatype GroupRow = GroupRow(name: string, avatar: string, status: int)

  /** A user brief as the user repository returns it, with its id. */
  datatype UserRow = UserRow(uuid: string, brief: CS.Brief)

  /**
   * The repositories checkAllowed and OpenSession read: groups by id, contact
   * row statuses by (user, contact, contact type), user briefs by id.
   */
  datatype Directory = Directory(groups: map<string, GroupRow>,
                                 contacts: map<(string, string, int), int>,
                                 users: map<string, CS.Brief>)

  /** GetUserBriefByUUIDs: the briefs of the listed ids that exist. */
  function UserRows(users: map<string, CS.Brief>, ids: seq<string>): (r: seq<UserRow>)
    ensures |r| <= |ids|
    ensures forall x :: x in r ==> x.uuid in ids && x.uuid in users && x.brief == users[x.uuid]
  {
    if |ids| == 0 then []
    else (if ids[0] in users then [UserRow(ids[0], users[ids[0]])] else []) + UserRows(users, ids[1..])
  }

  const SelfSession := "不能和自己创建会话"
  const NotGroupMember := "非群成员"
  const BlockedByPeer := "已被对方拉黑，无法发起会话"
  const BlockedPeer := "已拉黑对方，先解除拉黑状态才能发起会话"
  const PeerMissing := "对方不存在"
  const PeerAbnormal := "对方状态异常，无法发起会话"

  /** The group branch of checkAllowed. */
  function GroupCheck(d: Directory, sendId: string, gid: string): Status
  {
    if gid !in d.groups then Failure(Error(NotFound, "群组不存在"))
    else if d.groups[gid].status != 0 then Failure(Error(Forbidden, "群组状态异常"))
    else if (sendId, gid, 1) !in d.contacts then Failure(Error(Forbidden, NotGroupMember))
    else
      var st := d.contacts[(sendId, gid, 1)];
      if st == 6 || st == 7 then Failure(Error(Forbidden, NotGroupMember))
      else if st != 0 && st != 5 then Failure(Error(Forbidden, "非正常群成员状态"))
      else Success
  }

  /** The friend branch of checkAllowed. */
  function FriendCheck(d: Directory, sendId: string, peerId: string): Status
  {
    if (sendId, peerId, 0) !in d.contacts then Failure(Error(Forbidden, "非好友关系，无法发起会话"))
    else
      var st := d.contacts[(sendId, peerId, 0)];
      if st == 2 then Failure(Error(Forbidden, BlockedByPeer))
      else if st == 1 then Failure(Error(Forbidden, BlockedPeer))
      else if st != 0 then Failure(Error(Forbidden, "非正常好友关系，无法发起会话"))
      else
        var briefs := UserRows(d.users, [peerId]);
        if |briefs| == 0 then Failure(Error(NotFound, PeerMissing))
        else if briefs[0].brief.status != 0 then Failure(Error(Forbidden, PeerAbnormal))
        else Success
  }

  /** checkAllowed (and CheckOpenSessionAllowed): Success, or the refusal. */
  function CheckAllowed(d: Directory, sendId: string, receiveId: string): (r: Status)
    ensures sendId == [] || receiveId == [] ==> r == Failure(ErrParam)
    ensures r.Success? ==> sendId != [] && receiveId != [] && sendId != receiveId
  {
    if sendId == [] || receiveId == [] then Failure(ErrParam)
    else if sendId == receiveId then Failure(Error(BadRequest, SelfSession))
    else if PeerTypeOf(receiveId) == "G" then GroupCheck(d, sendId, receiveId)
    else FriendCheck(d, sendId, receiveId)
  }

  /** Empty ids and a session with oneself are refused as bad requests. */
  lemma CheckRefusesDegenerate(d: Directory, sendId: string, receiveId: string)
    requires sendId == [] || receiveId == [] || sendId == receiveId
    ensures CheckAllowed(d, sendId, receiveId).Failure?
    ensures CheckAllowed(d, sendId, receiveId).error.kind == BadRequest
  {
  }

  /** A group session is allowed iff the group is normal and the sender a normal or muted member. */
  lemma GroupSessionAllowedIff(d: Directory, sendId: string, gid: string)
    requires sendId != [] && sendId != gid && |gid| > 0 && gid[0] == 'G'
    ensures CheckAllowed(d, sendId, gid) == Success <==>
      && gid in d.groups && d.groups[gid].status == 0
      && (sendId, gid, 1) in d.contacts
      && (d.contacts[(sendId, gid, 1)] == 0 || d.contacts[(sendId, gid, 1)] == 5)
  {
  }

  /**
   * A session with a user is allowed iff the sender has a normal friend row
   * for the peer and the peer's account is normal; either side's blocking has
   * its own message.
   */
  lemma FriendSessionAllowedIff(d: Directory, sendId: string, peerId: string)
    requires sendId != [] && peerId != [] && sendId != peerId && peerId[0] != 'G'
    ensures CheckAllowed(d, sendId, peerId) == Success <==>
      && (sendId, peerId, 0) in d.contacts && d.contacts[(sendId, peerId, 0)] == 0
      && peerId in d.users && d.users[peerId].status == 0
    ensures (sendId, peerId, 0) in d.contacts && d.contacts[(sendId, peerId, 0)] == 2 ==>
      CheckAllowed(d, sendId, peerId) == Failure(Error(Forbidden, BlockedByPeer))
    ensures (sendId, peerId, 0) in d.contacts && d.contacts[(sendId, peerId, 0)] == 1 ==>
      CheckAllowed(d, sendId, peerId) == Failure(Error(Forbidden, BlockedPeer))
  {
    assert UserRows(d.users, [peerId][1..]) == [];
  }

  // ---------------------------------------------------------------------
  // OpenSession
  // ---------------------------------------------------------------------

  /** The session store: one row per (sender, receiver) direction. */
  type Store = map<(string, string), Session>

  /** The last brief in `rows` with id `id`: what the briefs loop keeps for that id. */
  function LastBrief(rows: seq<UserRow>, id: string): (b: Option<CS.Brief>)
    ensures b.Some? ==> UserRow(id, b.value) in rows
    ensures b.None? ==> forall x :: x in rows ==> x.uuid != id
  {
    if |rows| == 0 then None
    else if rows[|rows| - 1].uuid == id then Some(rows[|rows| - 1].brief)
    else LastBrief(rows[..|rows| - 1], id)
  }

  /** The group branch once the group exists: reuse the sender's session or create it. */
  function OpenGroup(st: Store, d: Directory, sendId: string, gid: string, newId: string, now: int,
                     writeErr: Option<Error>): (Store, Result<SessionItem>)
    requires gid in d.groups
  {
    if (sendId, gid) in st then (st, Ok(ToItem(sendId, gid, st[(sendId, gid)])))
    else
      var g := d.groups[gid];
      var s := Session(newId, sendId, gid, g.name, g.avatar, "", now, None);
      if writeErr.Some? then (st, Err(ErrServerError))
      else (st[(sendId, gid) := s], Ok(ToItem(sendId, gid, s)))
  }

  /** The friend branch: both briefs must exist and be normal, then the missing directions are created. */
  function OpenFriend(st: Store, d: Directory, sendId: string, peerId: string, ids: (string, string), now: int,
                      writeErr: Option<Error>): (Store, Result<SessionItem>)
  {
    var rows := UserRows(d.users, [sendId, peerId]);
    var sendB := LastBrief(rows, sendId);
    var peerB := LastBrief(rows, peerId);
    if peerB.None? then (st, Err(Error(NotFound, PeerMissing)))
    else if peerB.value.status != 0 then (st, Err(Error(Forbidden, PeerAbnormal)))
    else if sendB.None? then (st, Err(Error(NotFound, "用户不存在")))
    else if sendB.value.status != 0 then (st, Err(Error(Forbidden, "用户状态异常，无法发起会话")))
    else
      FriendCommit(st, sendId, peerId,
                   Session(ids.0, sendId, peerId, CS.DisplayName(peerB.value), peerB.value.avatar, "", now, None),
                   Session(ids.1, peerId, sendId, CS.DisplayName(sendB.value), sendB.value.avatar, "", now, None),
                   writeErr)
  }

  /** Store the fresh rows `ab` and `ba` for whichever direction is missing. */
  function FriendCommit(st: Store, sendId: string, peerId: string, ab: Session, ba: Session,
                        writeErr: Option<Error>): (Store, Result<SessionItem>)
  {
    var ab' := if (sendId, peerId) in st then st[(sendId, peerId)] else ab;
    var ba' := if (peerId, sendId) in st then st[(peerId, sendId)] else ba;
    if writeErr.Some? then (st, Err(ErrServerError))
    else (st[(sendId, peerId) := ab'][(peerId, sendId) := ba'], Ok(ToItem(sendId, peerId, ab')))
  }

  lemma FriendCommitEffect(st: Store, sendId: string, peerId: string, ab: Session, ba: Session,
                           writeErr: Option<Error>)
    requires sendId != peerId
    ensures var (st', r) := FriendCommit(st, sendId, peerId, ab, ba, writeErr);
      && (r.Err? ==> st' == st)
      && (r.Ok? ==> OpenedFrom(st, st', sendId, peerId, r.value) && (peerId, sendId) in st')
  {
  }

  /**
   * OpenSession: `ids` are the ids generated for the sender's and the peer's
   * new rows, `now` the clock, `writeErr` the outcome of the create.
   */
  function OpenSpec(st: Store, d: Directory, sendId: string, receiveId: string, ids: (string, string), now: int,
                    writeErr: Option<Error>): (Store, Result<SessionItem>)
  {
    if sendId == [] || receiveId == [] then (st, Err(ErrParam))
    else if sendId == receiveId then (st, Err(Error(BadRequest, SelfSession)))
    else
      match CheckAllowed(d, sendId, receiveId)
      case Failure(e) => (st, Err(e))
      case Success =>
        if (sendId, receiveId) in st && (receiveId, sendId) in st then
          (st, Ok(ToItem(sendId, receiveId, st[(sendId, receiveId)])))
        else if PeerTypeOf(receiveId) == "G" then OpenGroup(st, d, sendId, receiveId, ids.0, now, writeErr)
        else OpenFriend(st, d, sendId, receiveId, ids, now, writeErr)
  }

  /** What a successful open promises of the store it leaves and the item it returns. */
  predicate OpenedFrom(st: Store, st': Store, sendId: string, receiveId: string, item: SessionItem)
  {
    && (forall k :: k in st ==> k in st' && st'[k] == st[k])
    && (forall k :: k in st' ==> k in st || k == (sendId, receiveId) || k == (receiveId, sendId))
    && (sendId, receiveId) in st'
    && item == ToItem(sendId, receiveId, st'[(sendId, receiveId)])
  }

  lemma OpenGroupEffect(st: Store, d: Directory, sendId: string, gid: string, newId: string, now: int,
                        writeErr: Option<Error>)
    requires gid in d.groups && sendId != gid
    ensures var (st', r) := OpenGroup(st, d, sendId, gid, newId, now, writeErr);
      && (r.Err? ==> st' == st)
      && (r.Ok? ==> OpenedFrom(st, st', sendId, gid, r.value) && ((gid, sendId) in st' <==> (gid, sendId) in st))
  {
  }

  lemma OpenFriendEffect(st: Store, d: Directory, sendId: string, peerId: string, ids: (string, string),
                         now: int, writeErr: Option<Error>)
    requires sendId != peerId
    ensures var (st', r) := OpenFriend(st, d, sendId, peerId, ids, now, writeErr);
      && (r.Err? ==> st' == st)
      && (r.Ok? ==> OpenedFrom(st, st', sendId, peerId, r.value) && (peerId, sendId) in st')
  {
    var rows := UserRows(d.users, [sendId, peerId]);
    var sendB := LastBrief(rows, sendId);
    var peerB := LastBrief(rows, peerId);
    if peerB.Some? && peerB.value.status == 0 && sendB.Some? && sendB.value.status == 0 {
      FriendCommitEffect(st, sendId, peerId,
                         Session(ids.0, sendId, peerId, CS.DisplayName(peerB.value), peerB.value.avatar, "", now, None),
                         Session(ids.1, peerId, sendId, CS.DisplayName(sendB.value), sendB.value.avatar, "", now, None),
                         writeErr);
    }
  }

  /** A refused or failed open leaves the store as it was; a successful one was allowed. */
  lemma OpenRefusedUnchanged(st: Store, d: Directory, sendId: string, receiveId: string, ids: (string, string),
                             now: int, writeErr: Option<Error>)
    ensures var (st', r) := OpenSpec(st, d, sendId, receiveId, ids, now, writeErr);
      (r.Err? ==> st' == st) && (r.Ok? ==> CheckAllowed(d, sendId, receiveId) == Success)
  {
    if sendId != [] && receiveId != [] && sendId != receiveId && CheckAllowed(d, sendId, receiveId) == Success {
      if PeerTypeOf(receiveId) == "G" {
        OpenGroupEffect(st, d, sendId, receiveId, ids.0, now, writeErr);
      } else {
        OpenFriendEffect(st, d, sendId, receiveId, ids, now, writeErr);
      }
    }
  }

  /**
   * A successful open keeps every existing row, adds only the missing
   * direction(s), and returns the sender's row; a user session ends with both
   * directions stored, a group session only with the sender's.
   */
  lemma OpenCreatesOnlyMissing(st: Store, d: Directory, sendId: string, receiveId: string, ids: (string, string),
                               now: int, writeErr: Option<Error>)
    ensures var (st', r) := OpenSpec(st, d, sendId, receiveId, ids, now, writeErr);
      r.Ok? ==>
        && OpenedFrom(st, st', sendId, receiveId, r.value)
        && (PeerTypeOf(receiveId) != "G" ==> (receiveId, sendId) in st')
        && ((receiveId, sendId) in st' <==> (receiveId, sendId) in st || PeerTypeOf(receiveId) != "G")
  {
    if sendId != [] && receiveId != [] && sendId != receiveId && CheckAllowed(d, sendId, receiveId) == Success {
      if (sendId, receiveId) in st && (receiveId, sendId) in st {
      } else if PeerTypeOf(receiveId) == "G" {
        OpenGroupEffect(st, d, sendId, receiveId, ids.0, now, writeErr);
      } else {
        OpenFriendEffect(st, d, sendId, receiveId, ids, now, writeErr);
      }
    }
  }

  /** Opening an open session again changes nothing and returns the same item. */
  lemma OpenTwice(st: Store, d: Directory, sendId: string, receiveId: string, ids: (string, string), now: int,
                  writeErr: Option<Error>, ids2: (string, string), now2: int, writeErr2: Option<Error>)
    requires OpenSpec(st, d, sendId, receiveId, ids, now, writeErr).1.Ok?
    ensures var (st', r) := OpenSpec(st, d, sendId, receiveId, ids, now, writeErr);
      OpenSpec(st', d, sendId, receiveId, ids2, now2, writeErr2) == (st', r)
  {
    OpenCreatesOnlyMissing(st, d, sendId, receiveId, ids, now, writeErr);
  }

  /** The briefs loop: the last brief seen for the sender and for the peer. */
  method FindBriefs(rows: seq<UserRow>, sendId: string, peerId: string)
    returns (sendB: Option<CS.Brief>, peerB: Option<CS.Brief>)
    requires sendId != peerId
    ensures sendB == LastBrief(rows, sendId) && peerB == LastBrief(rows, peerId)
  {
    sendB, peerB := None, None;
    var i := 0;
    while i < |rows|
      invariant 0 <= i <= |rows|
      invariant sendB == LastBrief(rows[..i], sendId) && peerB == LastBrief(rows[..i], peerId)
    {
      var b := rows[i];
      assert rows[..i + 1][..i] == rows[..i];
      if b.uuid == sendId {
        sendB := Some(b.brief);
      } else if b.uuid == peerId {
        peerB := Some(b.brief);
      }
      i := i + 1;
    }
    assert rows[..i] == rows;
  }

  class SessionServiceImpl {
    var sessions: Store
    const dir: Directory

    constructor(dir: Directory, sessions: Store)
      ensures this.sessions == sessions && this.dir == dir
    {
      this.dir := dir;
      this.sessions := sessions;
    }

    method OpenSession(sendId: string, receiveId: string, ids: (string, string), now: int, writeErr: Option<Error>)
      returns (r: Result<SessionItem>)
      modifies this
      ensures (sessions, r) == OpenSpec(old(sessions), dir, sendId, receiveId, ids, now, writeErr)
    {
      if sendId == [] || receiveId == [] {
        return Err(ErrParam);
      }
      if sendId == receiveId {
        return Err(Error(BadRequest, SelfSession));
      }
      var allowed := CheckAllowed(dir, sendId, receiveId);
      if allowed.Failure? {
        return Err(allowed.error);
      }
      var hasAB := (sendId, receiveId) in sessions;
      var hasBA := (receiveId, sendId) in sessions;
      if hasAB && hasBA {
        return Ok(ToItem(sendId, receiveId, sessions[(sendId, receiveId)]));
      }
      if PeerTypeOf(receiveId) == "G" {
        r := OpenGroupSession(sendId, receiveId, ids.0, now, writeErr);
        return;
      }
      r := OpenFriendSession(sendId, receiveId, ids, now, writeErr);
    }

    method OpenGroupSession(sendId: string, gid: string, newId: string, now: int, writeErr: Option<Error>)
      returns (r: Result<SessionItem>)
      requires gid in dir.groups
      modifies this
      ensures (sessions, r) == OpenGroup(old(sessions), dir, sendId, gid, newId, now, writeErr)
    {
      if (sendId, gid) in sessions {
        return Ok(ToItem(sendId, gid, sessions[(sendId, gid)]));
      }
      var g := dir.groups[gid];
      var s := Session(newId, sendId, gid, g.name, g.avatar, "", now, None);
      if writeErr.Some? {
        return Err(ErrServerError);
      }
      sessions := sessions[(sendId, gid) := s];
      return Ok(ToItem(sendId, gid, s));
    }

    method OpenFriendSession(sendId: string, peerId: string, ids: (string, string), now: int, writeErr: Option<Error>)
      returns (r: Result<SessionItem>)
      requires sendId != peerId
      requires !((sendId, peerId) in sessions && (peerId, sendId) in sessions)
      modifies this
      ensures (sessions, r) == OpenFriend(old(sessions), dir, sendId, peerId, ids, now, writeErr)
    {
      var sendB, peerB := FindBriefs(UserRows(dir.users, [sendId, peerId]), sendId, peerId);
      if peerB.None? {
        return Err(Error(NotFound, PeerMissing));
      }
      if peerB.value.status != 0 {
        return Err(Error(Forbidden, PeerAbnormal));
      }
      if sendB.None? {
        return Err(Error(NotFound, "用户不存在"));
      }
      if sendB.value.status != 0 {
        return Err(Error(Forbidden, "用户状态异常，无法发起会话"));
      }
      var toCreate: seq<Session> := [];
      var ab: Session;
      if (sendId, peerId) in sessions {
        ab := sessions[(sendId, peerId)];
      } else {
        ab := Session(ids.0, sendId, peerId, CS.DisplayName(peerB.value), peerB.value.avatar, "", now, None);
        toCreate := toCreate + [ab];
      }
      var ba: Session;
      if (peerId, sendId) in sessions {
        ba := sessions[(peerId, sendId)];
      } else {
        ba := Session(ids.1, peerId, sendId, CS.DisplayName(sendB.value), sendB.value.avatar, "", now, None);
        toCreate := toCreate + [ba];
      }
      if |toCreate| > 0 && writeErr.Some? {
        return Err(ErrServerError);
      }
      sessions := sessions[(sendId, peerId) := ab][(peerId, sendId) := ba];
      return Ok(ToItem(sendId, peerId, ab));
    }
  }
}
