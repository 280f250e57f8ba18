/**
 * Friend and group-join applications of the contact module
 * (contactServiceImpl): the friend list, applying, passing and refusing an
 * application, and the list of pending applications.
 *
 * Contact rows are split by type: `friends` holds the type-0 rows and
 * `groupRels` the type-1 rows, each keyed by (user id, contact id) and
 * holding the row's status. Applications are keyed by (applicant, target,
 * type), the triple ApplyContact looks them up by.
 */
module ContactService {
  import opened Common
  import opened GoStrings
  import opened Seqs
  import GS = GroupService

  // ---------------------------------------------------------------------
  // First-seen, duplicate-free id lists (the `seen` map and `ordered` slice)
  // ---------------------------------------------------------------------

  /** Append `x` unless it is empty or already listed. */
  function AppendNew(r: seq<string>, x: string): seq<string>
  {
    if x == [] || x in r then r else r + [x]
  }

  /** A list of ids as the `seen` loops build them: no duplicate, no empty id. */
  predicate IdList(r: seq<string>)
  {
    Distinct(r) && [] !in r
  }

  lemma AppendNewStep(r: seq<string>, x: string)
    ensures |r| <= |AppendNew(r, x)| && AppendNew(r, x)[..|r|] == r
    ensures forall y :: y in AppendNew(r, x) <==> y in r || (y == x && x != [])
    ensures IdList(r) ==> IdList(AppendNew(r, x))
  {
    if x != [] && x !in r {
      assert (r + [x])[..|r|] == r;
    }
  }

  // ---------------------------------------------------------------------
  // GetUserList
  // ---------------------------------------------------------------------

  /** One row of the owner's contact list. */
  datatype ContactRow = ContactRow(contactId: string, contactType: int, status: int)

  /** What the user repository knows of an account. */
  datatype Brief = Brief(username: string, nickname: string, avatar: string, status: int)

  datatype UserListItem = UserListItem(userId: string, userName: string, avatar: string, status: int)

  /** A friend in good standing: type 0, status 0. */
  predicate IsFriendRow(c: ContactRow) { c.contactType == 0 && c.status == 0 }

  /** The contact ids of the friend rows, in row order. */
  function FriendRowIds(cs: seq<ContactRow>): seq<string>
  {
    if cs == [] then []
    else
      var r := FriendRowIds(cs[..|cs| - 1]);
      if IsFriendRow(cs[|cs| - 1]) then r + [cs[|cs| - 1].contactId] else r
  }

  /** FriendRowIds lists exactly the ids of the friend rows. */
  lemma {:induction false} FriendRowIdsExact(cs: seq<ContactRow>)
    ensures forall c :: c in cs && IsFriendRow(c) ==> c.contactId in FriendRowIds(cs)
    ensures forall id :: id in FriendRowIds(cs) ==> exists c :: c in cs && IsFriendRow(c) && c.contactId == id
    decreases |cs|
  {
    if cs != [] {
      var init := cs[..|cs| - 1];
      assert cs == init + [cs[|cs| - 1]];
      FriendRowIdsExact(init);
    }
  }

  /** `ordered` of GetUserList: friend ids, non-empty, first occurrence only. */
  function FriendIds(cs: seq<ContactRow>): seq<string>
  {
    if cs == [] then []
    else
      var r := FriendIds(cs[..|cs| - 1]);
      var c := cs[|cs| - 1];
      if IsFriendRow(c) then AppendNew(r, c.contactId) else r
  }

  /**
   * The friend ids hold no duplicate and no empty id, and hold exactly the
   * non-empty ids of the friend rows.
   */
  lemma {:induction false} FriendIdsShape(cs: seq<ContactRow>)
    ensures IdList(FriendIds(cs))
    ensures forall id :: id in FriendIds(cs) <==> id != [] && id in FriendRowIds(cs)
    decreases |cs|
  {
    if cs != [] {
      var init := cs[..|cs| - 1];
      FriendIdsShape(init);
      AppendNewStep(FriendIds(init), cs[|cs| - 1].contactId);
    }
  }

  /** Ids keep the place of their first occurrence: later rows only append. */
  lemma {:induction false} FriendIdsPrefix(cs: seq<ContactRow>, n: nat)
    requires n <= |cs|
    ensures |FriendIds(cs[..n])| <= |FriendIds(cs)|
    ensures FriendIds(cs)[..|FriendIds(cs[..n])|] == FriendIds(cs[..n])
    decreases |cs| - n
  {
    if n == |cs| {
      assert cs[..n] == cs;
    } else {
      var init := cs[..|cs| - 1];
      FriendIdsPrefix(init, n);
      assert init[..n] == cs[..n];
      var r := FriendIds(init);
      AppendNewStep(r, cs[|cs| - 1].contactId);
      var p := FriendIds(cs[..n]);
      assert FriendIds(cs)[..|r|] == r;
      assert FriendIds(cs)[..|p|] == FriendIds(cs)[..|r|][..|p|];
    }
  }

  /** The display name: the nickname, or the username when it is empty. */
  function DisplayName(b: Brief): (name: string)
    ensures name == [] ==> b.nickname == [] && b.username == []
    ensures b.nickname != [] ==> name == b.nickname
  {
    if b.nickname == [] then b.username else b.nickname
  }

  function ItemOf(id: string, b: Brief): UserListItem
  {
    UserListItem(id, DisplayName(b), b.avatar, b.status)
  }

  /** The response items: one per listed id that has a brief, in list order. */
  function ListItems(ids: seq<string>, briefs: map<string, Brief>): seq<UserListItem>
  {
    if ids == [] then []
    else
      var r := ListItems(ids[..|ids| - 1], briefs);
      var id := ids[|ids| - 1];
      if id in briefs then r + [ItemOf(id, briefs[id])] else r
  }

  /**
   * Every item describes a listed id from its brief, and every listed id
   * with a brief has its item; ids without a brief are skipped.
   */
  lemma {:induction false} ListItemsExact(ids: seq<string>, briefs: map<string, Brief>)
    ensures |ListItems(ids, briefs)| <= |ids|
    ensures forall it :: it in ListItems(ids, briefs) ==>
              it.userId in ids && it.userId in briefs && it == ItemOf(it.userId, briefs[it.userId])
    ensures forall id :: id in ids && id in briefs ==> ItemOf(id, briefs[id]) in ListItems(ids, briefs)
    decreases |ids|
  {
    if ids != [] {
      var init := ids[..|ids| - 1];
      assert ids == init + [ids[|ids| - 1]];
      ListItemsExact(init, briefs);
    }
  }

  /**
   * GetUserList, given the owner's contact rows and the briefs of their ids;
   * `contactsErr` and `briefsErr` say whether reading the rows or the
   * briefs fails.
   */
  function GetUserListSpec(ownerId: string, contacts: seq<ContactRow>, briefs: map<string, Brief>,
                           contactsErr: bool, briefsErr: bool): Result<seq<UserListItem>>
  {
    if ownerId == [] then Err(ErrParam)
    else if contactsErr || briefsErr then Err(ErrServerError)
    else Ok(ListItems(FriendIds(contacts), briefs))
  }

  /**
   * The list is served exactly when both reads succeed, and a failed read
   * is a server error; the friend list names only friends in good standing
   * that have a brief, once each, and names every such friend.
   */
  lemma FriendListExact(ownerId: string, contacts: seq<ContactRow>, briefs: map<string, Brief>,
                        contactsErr: bool, briefsErr: bool)
    requires ownerId != []
    ensures var r := GetUserListSpec(ownerId, contacts, briefs, contactsErr, briefsErr);
      (r.Ok? <==> !contactsErr && !briefsErr) && (r.Err? ==> r.error == ErrServerError)
    ensures var r := GetUserListSpec(ownerId, contacts, briefs, contactsErr, briefsErr);
      r.Ok? ==> var items := r.value;
      (forall it :: it in items ==> it.userId != [] && it.userId in FriendRowIds(contacts) && it.userId in briefs)
      && (forall id :: id != [] && id in FriendRowIds(contacts) && id in briefs ==> ItemOf(id, briefs[id]) in items)
  {
    FriendIdsShape(contacts);
    ListItemsExact(FriendIds(contacts), briefs);
  }

  /** The `seen` loop of GetUserList. */
  method CollectFriendIds(contacts: seq<ContactRow>) returns (ordered: seq<string>)
    ensures ordered == FriendIds(contacts)
  {
    ordered := [];
    var seen: set<string> := {};
    for i := 0 to |contacts|
      invariant ordered == FriendIds(contacts[..i])
      invariant forall x :: x in seen <==> x in ordered
    {
      assert contacts[..i + 1][..i] == contacts[..i];
      var c := contacts[i];
      if c.contactType != 0 || c.status != 0 || c.contactId == [] || c.contactId in seen {
        continue;
      }
      seen := seen + {c.contactId};
      ordered := ordered + [c.contactId];
    }
    assert contacts[..|contacts|] == contacts;
  }

  method GetUserList(ownerId: string, contacts: seq<ContactRow>, briefs: map<string, Brief>,
                     contactsErr: bool, briefsErr: bool) returns (r: Result<seq<UserListItem>>)
    ensures r == GetUserListSpec(ownerId, contacts, briefs, contactsErr, briefsErr)
  {
    if ownerId == [] {
      return Err(ErrParam);
    }
    if contactsErr {
      return Err(ErrServerError);
    }
    var ordered := CollectFriendIds(contacts);
    if briefsErr {
      return Err(ErrServerError);
    }
    var out: seq<UserListItem> := [];
    for i := 0 to |ordered|
      invariant out == ListItems(ordered[..i], briefs)
    {
      assert ordered[..i + 1][..i] == ordered[..i];
      var id := ordered[i];
      if id !in briefs {
        continue;
      }
      var b := briefs[id];
      var name := b.nickname;
      if name == [] {
        name := b.username;
      }
      out := out + [UserListItem(id, name, b.avatar, b.status)];
    }
    assert ordered[..|ordered|] == ordered;
    return Ok(out);
  }

  // ---------------------------------------------------------------------
  // Applications
  // ---------------------------------------------------------------------

  /** An application; status 0 pending, 1 passed, 2 refused, 3 blacklisted. */
  datatype Apply = Apply(uuid: string, userId: string, contactId: string, contactType: int, status: int, message: string)

  function KeyOf(a: Apply): (string, string, int) { (a.userId, a.contactId, a.contactType) }

  const ApplyPending := 0
  const ApplyPassed := 1
  const ApplyRefused := 2
  const ApplyBlocked := 3

  /** The text of gorm's not-found error, which some branches return as it is. */
  const RecordNotFound := "record not found"

  const JoinGroupMessage := "申请加入群聊"

  datatype State = State(
    friends: map<(string, string), int>,
    groupRels: map<(string, string), int>,
    groups: map<string, GS.GroupInfo>,
    applies: map<(string, string, int), Apply>,
    contactQueue: seq<(string, string)>,
    groupQueue: seq<(string, string)>)

  /** Every application sits under its own (applicant, target, type). */
  predicate KeysMatch(st: State)
  {
    forall k :: k in st.applies ==> KeyOf(st.applies[k]) == k
  }

  /** Contact type of an id: groups are the ids that start with "G". */
  function ContactTypeOf(id: string): (t: int)
    ensures t == 1 <==> |id| > 0 && id[0] == 'G'
    ensures t == 0 || t == 1
  {
    if HasPrefix(id, "G") then 1 else 0
  }

  /** The stored message: an empty group application gets the default text. */
  function ApplyMessage(msg: string, contactType: int): (m: string)
    ensures m == [] ==> contactType != 1
  {
    if msg == [] && contactType == 1 then JoinGroupMessage else msg
  }

  /**
   * Which reads of ApplyContact fail with an error other than not-found:
   * the target's (the user's brief, or the group row) and the owner's
   * relation to the target.
   */
  datatype ApplyReads = ApplyReads(targetErr: bool, relationErr: bool)

  /**
   * Why ApplyContact refuses, once the target's type is known. A failed
   * read of the target, or of a friend relation, is a server error; a
   * failed read of a group membership counts as not being a member.
   */
  function ApplyRefusal(st: State, users: map<string, int>, ownerId: string, contactId: string, t: int,
                        rd: ApplyReads): Option<Error>
  {
    if rd.targetErr then Some(ErrServerError)
    else if t == 0 then
      if contactId !in users then Some(Error(NotFound, "用户不存在"))
      else if users[contactId] != 0 then Some(Error(Forbidden, "用户不可用"))
      else if rd.relationErr then Some(ErrServerError)
      else if (ownerId, contactId) in st.friends then
        var s := st.friends[(ownerId, contactId)];
        if s == 0 then Some(Error(BadRequest, "已是好友"))
        else if s == 1 then Some(Error(BadRequest, "您已将对方拉黑"))
        else if s == 2 then Some(Error(Forbidden, "对方已将您拉黑"))
        else None
      else None
    else
      if contactId !in st.groups then Some(Error(NotFound, "群组不存在"))
      else if st.groups[contactId].status != 0 then Some(Error(Forbidden, "群组状态异常"))
      else if !rd.relationErr && GS.IsMember(st.groupRels, ownerId, contactId) then Some(Error(BadRequest, "已在群聊中"))
      else None
  }

  /** The application row ApplyContact writes: the old one reopened, or a new one. */
  function StoredApply(applies: map<(string, string, int), Apply>, key: (string, string, int),
                       msg: string, newId: string): Apply
  {
    if key in applies then
      var a := applies[key];
      a.(status := ApplyPending, message := msg, uuid := if a.uuid == [] then newId else a.uuid)
    else Apply(newId, key.0, key.1, key.2, ApplyPending, msg)
  }

  /**
   * ApplyContact with `newId` the id generated for a new or id-less row,
   * `rd` the reads that fail, and `writeErr` the failure, if any, of the
   * read of an earlier application or of the write.
   */
  function ApplySpec(st: State, users: map<string, int>, ownerId: string, contactId: string, message: string,
                     newId: string, rd: ApplyReads, writeErr: Option<Error>): (State, Result<string>)
  {
    if ownerId == [] || contactId == [] then (st, Err(ErrParam))
    else if ownerId == contactId then (st, Err(Error(BadRequest, "不能添加自己")))
    else
      var t := ContactTypeOf(contactId);
      var refusal := ApplyRefusal(st, users, ownerId, contactId, t, rd);
      if refusal.Some? then (st, Err(refusal.value))
      else if writeErr.Some? then (st, Err(ErrServerError))
      else
        var key := (ownerId, contactId, t);
        var a := StoredApply(st.applies, key, ApplyMessage(message, t), newId);
        (st.(applies := st.applies[key := a]), Ok(a.uuid))
  }

  /** Nobody can apply to themselves, and a refused application changes nothing. */
  lemma ApplyRefusedUnchanged(st: State, users: map<string, int>, ownerId: string, contactId: string, message: string,
                              newId: string, rd: ApplyReads, writeErr: Option<Error>)
    ensures var (st', r) := ApplySpec(st, users, ownerId, contactId, message, newId, rd, writeErr);
      (ownerId == contactId ==> r.Err?) && (r.Err? ==> st' == st)
  {
  }

  /**
   * An application is stored pending under the applicant, the target and
   * the target's type (group iff the id starts with "G"); a reopened
   * application keeps its id, and nothing else changes.
   */
  lemma ApplyStored(st: State, users: map<string, int>, ownerId: string, contactId: string, message: string,
                    newId: string, rd: ApplyReads, writeErr: Option<Error>)
    ensures var (st', r) := ApplySpec(st, users, ownerId, contactId, message, newId, rd, writeErr);
      r.Ok? ==>
        var key := (ownerId, contactId, if |contactId| > 0 && contactId[0] == 'G' then 1 else 0);
        key in st'.applies && st'.applies[key].status == ApplyPending && st'.applies[key].uuid == r.value
        && (key in st.applies && st.applies[key].uuid != [] ==> r.value == st.applies[key].uuid)
        && st'.applies == st.applies[key := st'.applies[key]]
        && st'.friends == st.friends && st'.groupRels == st.groupRels && st'.groups == st.groups
  {
  }

  /** Applying keeps every application under its own key. */
  lemma ApplyKeepsKeys(st: State, users: map<string, int>, ownerId: string, contactId: string, message: string,
                       newId: string, rd: ApplyReads, writeErr: Option<Error>)
    requires KeysMatch(st)
    ensures KeysMatch(ApplySpec(st, users, ownerId, contactId, message, newId, rd, writeErr).0)
  {
  }

  /**
   * A failed read of the target refuses a well-formed application with a
   * server error; a server error comes only from a failed read or write;
   * and a failed membership read never reports "already in the group".
   */
  lemma ApplyReadFailures(st: State, users: map<string, int>, ownerId: string, contactId: string, message: string,
                          newId: string, rd: ApplyReads, writeErr: Option<Error>)
    ensures var (st', r) := ApplySpec(st, users, ownerId, contactId, message, newId, rd, writeErr);
      (ownerId != [] && contactId != [] && ownerId != contactId && rd.targetErr ==> r == Err(ErrServerError))
      && (r == Err(ErrServerError) ==> rd.targetErr || rd.relationErr || writeErr.Some?)
      && (rd.relationErr && HasPrefix(contactId, "G") ==> r != Err(Error(BadRequest, "已在群聊中")))
  {
  }

  /** Already being friends, or blacklisting in either direction, refuses a friend application. */
  lemma ApplyToFriendRefused(st: State, users: map<string, int>, ownerId: string, contactId: string, message: string,
                             newId: string, rd: ApplyReads, writeErr: Option<Error>)
    requires ownerId != [] && contactId != [] && ownerId != contactId && !HasPrefix(contactId, "G")
    requires (ownerId, contactId) in st.friends && st.friends[(ownerId, contactId)] in {0, 1, 2}
    ensures ApplySpec(st, users, ownerId, contactId, message, newId, rd, writeErr).1.Err?
  {
  }

  /**
   * The repository's lookup of an application by id: the key of the row
   * with that id, or None when there is none.
   */
  predicate LookedUp(applies: map<(string, string, int), Apply>, applyId: string, found: Option<(string, string, int)>)
  {
    match found
    case Some(k) => k in applies && applies[k].uuid == applyId
    case None => forall k :: k in applies ==> applies[k].uuid != applyId
  }

  /** The friend branch of PassContactApply: only the target may pass. */
  function PassFriend(st: State, hasIngest: bool, ownerId: string, key: (string, string, int), writeErr: Option<Error>): (State, Status)
    requires key in st.applies
  {
    var a := st.applies[key];
    if a.contactId != ownerId then (st, Failure(Error(Forbidden, "无权操作该申请")))
    else if writeErr.Some? then (st, Failure(ErrServerError))
    else
      (st.(applies := st.applies[key := a.(status := ApplyPassed)],
           friends := st.friends[(a.userId, a.contactId) := 0][(a.contactId, a.userId) := 0],
           contactQueue := if hasIngest && a.userId != [] && a.contactId != []
                           then st.contactQueue + [(a.userId, a.contactId), (a.contactId, a.userId)]
                           else st.contactQueue),
       Success)
  }

  /** The refreshes queued after a group application passes. */
  function JoinRefreshes(listed: Option<seq<string>>, applicant: string): seq<string>
  {
    var members := if listed.Some? then listed.value else [];
    if members == [] && applicant != [] then [applicant] else members
  }

  /**
   * The group branch of PassContactApply: only the owner of an active
   * group may pass; `listed` is the member query after the upsert.
   */
  function PassGroup(st: State, hasIngest: bool, ownerId: string, key: (string, string, int),
                     listed: Option<seq<string>>, writeErr: Option<Error>): (State, Status)
    requires key in st.applies
  {
    var a := st.applies[key];
    var gid := a.contactId;
    if gid !in st.groups then (st, Failure(PlainErr(RecordNotFound)))
    else
      var g := st.groups[gid];
      if g.status != 0 then (st, Failure(Error(Forbidden, "群组状态异常")))
      else if g.ownerId != ownerId then (st, Failure(Error(Forbidden, "只有群主可以审批入群申请")))
      else if writeErr.Some? then (st, Failure(writeErr.value))
      else
        var g' := if listed.Some? then g.(members := listed.value, memberCnt := |listed.value|) else g;
        (st.(applies := st.applies[key := a.(status := ApplyPassed)],
             groupRels := st.groupRels[(a.userId, gid) := 0],
             groups := st.groups[gid := g'],
             groupQueue := if hasIngest && gid != [] then st.groupQueue + GS.Pairs(JoinRefreshes(listed, a.userId), gid)
                           else st.groupQueue),
         Success)
  }

  /**
   * PassContactApply; `found` is the lookup of `applyId` and `applyErr`
   * says that lookup failed with an error other than not-found.
   */
  function PassSpec(st: State, hasIngest: bool, ownerId: string, applyId: string, found: Option<(string, string, int)>,
                    applyErr: bool, listed: Option<seq<string>>, writeErr: Option<Error>): (State, Status)
    requires LookedUp(st.applies, applyId, found)
  {
    if ownerId == [] || applyId == [] then (st, Failure(ErrParam))
    else if applyErr then (st, Failure(ErrServerError))
    else if found.None? then (st, Failure(Error(NotFound, "申请不存在")))
    else
      var a := st.applies[found.value];
      if a.status == ApplyPassed then (st, Success)
      else if a.status == ApplyBlocked then (st, Failure(Error(Forbidden, "该申请已被拉黑")))
      else if a.contactType == 0 then PassFriend(st, hasIngest, ownerId, found.value, writeErr)
      else if a.contactType == 1 then PassGroup(st, hasIngest, ownerId, found.value, listed, writeErr)
      else (st, Failure(Error(BadRequest, "不支持的申请类型")))
  }

  /**
   * Passing: a blacklisted application is refused; one already passed
   * succeeds without a change, so passing twice is the same as passing
   * once; a friend application is passed only by its target and then
   * makes the two users friends in both directions.
   */
  lemma PassEffect(st: State, hasIngest: bool, ownerId: string, applyId: string, found: Option<(string, string, int)>,
                   applyErr: bool, listed: Option<seq<string>>, writeErr: Option<Error>)
    requires LookedUp(st.applies, applyId, found) && KeysMatch(st)
    ensures var (st', r) := PassSpec(st, hasIngest, ownerId, applyId, found, applyErr, listed, writeErr);
      (r.Failure? ==> st' == st)
      && (ownerId != [] && applyId != [] && applyErr ==> r == Failure(ErrServerError))
      && (found.Some? && st.applies[found.value].status == ApplyBlocked ==> r.Failure?)
      && ((ownerId != [] && applyId != [] && !applyErr && found.Some? && st.applies[found.value].status == ApplyPassed)
            ==> st' == st && r.Success?)
      && KeysMatch(st')
  {
  }

  /**
   * A friend application is passed only by its target, and passing it
   * marks it passed and makes the two users friends in both directions.
   */
  lemma PassFriendEffect(st: State, hasIngest: bool, ownerId: string, key: (string, string, int), writeErr: Option<Error>)
    requires key in st.applies
    ensures var (st', r) := PassFriend(st, hasIngest, ownerId, key, writeErr);
      var a := st.applies[key];
      (r.Success? <==> a.contactId == ownerId && writeErr.None?)
      && (r.Success? ==>
            key in st'.applies && st'.applies[key] == a.(status := ApplyPassed)
            && (a.userId, a.contactId) in st'.friends && st'.friends[(a.userId, a.contactId)] == 0
            && (a.contactId, a.userId) in st'.friends && st'.friends[(a.contactId, a.userId)] == 0)
  {
  }

  /** A successful pass leaves the application passed, so a second pass changes nothing. */
  lemma PassTwice(st: State, hasIngest: bool, ownerId: string, applyId: string, found: Option<(string, string, int)>,
                  applyErr: bool, listed: Option<seq<string>>, writeErr: Option<Error>,
                  listed2: Option<seq<string>>, writeErr2: Option<Error>)
    requires LookedUp(st.applies, applyId, found)
    requires PassSpec(st, hasIngest, ownerId, applyId, found, applyErr, listed, writeErr).1.Success?
    ensures var st' := PassSpec(st, hasIngest, ownerId, applyId, found, applyErr, listed, writeErr).0;
      LookedUp(st'.applies, applyId, found)
      && PassSpec(st', hasIngest, ownerId, applyId, found, false, listed2, writeErr2) == (st', Success)
  {
    var st' := PassSpec(st, hasIngest, ownerId, applyId, found, applyErr, listed, writeErr).0;
    assert ownerId != [] && applyId != [] && found.Some?;
    var k := found.value;
    assert k in st'.applies && st'.applies[k].uuid == applyId;
    assert st'.applies[k].status == ApplyPassed;
  }

  /** A passed group application keeps MemberCnt equal to the member list's length. */
  lemma PassKeepsGroupsConsistent(st: State, hasIngest: bool, ownerId: string, applyId: string,
                                  found: Option<(string, string, int)>, applyErr: bool,
                                  listed: Option<seq<string>>, writeErr: Option<Error>)
    requires LookedUp(st.applies, applyId, found)
    requires forall g :: g in st.groups ==> st.groups[g].memberCnt == |st.groups[g].members|
    ensures var st' := PassSpec(st, hasIngest, ownerId, applyId, found, applyErr, listed, writeErr).0;
      forall g :: g in st'.groups ==> st'.groups[g].memberCnt == |st'.groups[g].members|
  {
    if ownerId != [] && applyId != [] && !applyErr && found.Some? && st.applies[found.value].contactType == 1 {
      PassGroupKeepsConsistent(st, hasIngest, ownerId, found.value, listed, writeErr);
    }
  }

  lemma PassGroupKeepsConsistent(st: State, hasIngest: bool, ownerId: string, key: (string, string, int),
                                 listed: Option<seq<string>>, writeErr: Option<Error>)
    requires key in st.applies
    requires forall g :: g in st.groups ==> st.groups[g].memberCnt == |st.groups[g].members|
    ensures var st' := PassGroup(st, hasIngest, ownerId, key, listed, writeErr).0;
      forall g :: g in st'.groups ==> st'.groups[g].memberCnt == |st'.groups[g].members|
  {
  }

  /** Why RefuseContactApply refuses a pending application. */
  function RefuseDenied(st: State, ownerId: string, a: Apply): Option<Error>
  {
    if a.contactType == 0 then
      if a.contactId != ownerId then Some(Error(Forbidden, "无权操作该申请")) else None
    else if a.contactType == 1 then
      if a.contactId !in st.groups then Some(PlainErr(RecordNotFound))
      else if st.groups[a.contactId].ownerId != ownerId then Some(Error(Forbidden, "只有群主可以审批"))
      else None
    else Some(Error(BadRequest, "不支持的申请类型"))
  }

  /**
   * RefuseContactApply; `found` is the lookup of `applyId` and `applyErr`
   * says that lookup failed with an error other than not-found.
   */
  function RefuseSpec(st: State, ownerId: string, applyId: string, found: Option<(string, string, int)>,
                      applyErr: bool, writeErr: Option<Error>): (State, Status)
    requires LookedUp(st.applies, applyId, found)
  {
    if ownerId == [] || applyId == [] then (st, Failure(ErrParam))
    else if applyErr then (st, Failure(ErrServerError))
    else if found.None? then (st, Failure(Error(NotFound, "申请不存在")))
    else
      var a := st.applies[found.value];
      if a.status == ApplyRefused then (st, Success)
      else if a.status == ApplyPassed then (st, Failure(Error(BadRequest, "已通过，无法拒绝")))
      else if a.status == ApplyBlocked then (st, Failure(Error(Forbidden, "该申请已被拉黑")))
      else
        var denied := RefuseDenied(st, ownerId, a);
        if denied.Some? then (st, Failure(denied.value))
        else if writeErr.Some? then (st, Failure(ErrServerError))
        else (st.(applies := st.applies[found.value := a.(status := ApplyRefused)]), Success)
  }

  /**
   * Refusing is a no-op on a refused application and an error on a passed
   * one; otherwise a permitted refusal sets status 2 and changes nothing
   * else, and refusing again then succeeds without a change.
   */
  lemma RefuseEffect(st: State, ownerId: string, applyId: string, found: Option<(string, string, int)>,
                     applyErr: bool, writeErr: Option<Error>, writeErr2: Option<Error>)
    requires LookedUp(st.applies, applyId, found)
    ensures var (st', r) := RefuseSpec(st, ownerId, applyId, found, applyErr, writeErr);
      (r.Failure? ==> st' == st)
      && (ownerId != [] && applyId != [] && applyErr ==> r == Failure(ErrServerError))
      && (found.Some? && st.applies[found.value].status == ApplyPassed ==> r.Failure?)
      && ((ownerId != [] && applyId != [] && !applyErr && found.Some? && st.applies[found.value].status == ApplyRefused)
            ==> st' == st && r.Success?)
      && (r.Success? && found.Some? ==>
            st'.applies == st.applies[found.value := st.applies[found.value].(status := ApplyRefused)]
            && st'.friends == st.friends && st'.groupRels == st.groupRels && st'.groups == st.groups
            && LookedUp(st'.applies, applyId, found)
            && RefuseSpec(st', ownerId, applyId, found, false, writeErr2) == (st', Success))
  {
  }

  // ---------------------------------------------------------------------
  // GetNewContactList
  // ---------------------------------------------------------------------

  datatype NewContactItem = NewContactItem(
    uuid: string, userId: string, username: string, nickname: string, avatar: string,
    message: string, status: int)

  const GroupApplyTag := "[申请入群] "

  /** The pending applications to the groups in `groupIds`, group by group. */
  function GroupApplies(groupIds: seq<string>, pending: string -> seq<Apply>): seq<Apply>
  {
    if groupIds == [] then []
    else GroupApplies(groupIds[..|groupIds| - 1], pending) + pending(groupIds[|groupIds| - 1])
  }

  /** `userIDs` of GetNewContactList: applicants, non-empty, first occurrence only. */
  function ApplicantIds(applies: seq<Apply>): seq<string>
  {
    if applies == [] then []
    else AppendNew(ApplicantIds(applies[..|applies| - 1]), applies[|applies| - 1].userId)
  }

  lemma {:induction false} ApplicantIdsShape(applies: seq<Apply>)
    ensures IdList(ApplicantIds(applies))
    ensures forall a :: a in applies && a.userId != [] ==> a.userId in ApplicantIds(applies)
    decreases |applies|
  {
    if applies != [] {
      var init := applies[..|applies| - 1];
      assert applies == init + [applies[|applies| - 1]];
      ApplicantIdsShape(init);
      AppendNewStep(ApplicantIds(init), applies[|applies| - 1].userId);
    }
  }

  /** The item for one application: names from its applicant's brief, if any, and group applications tagged. */
  function NewItemOf(a: Apply, briefs: map<string, Brief>): (it: NewContactItem)
    ensures it.uuid == a.uuid && it.userId == a.userId && it.status == a.status
    ensures it.message == if a.contactType == 1 then GroupApplyTag + a.message else a.message
    ensures a.userId !in briefs ==> it.username == [] && it.nickname == [] && it.avatar == []
  {
    var b := if a.userId in briefs then briefs[a.userId] else Brief([], [], [], 0);
    NewContactItem(a.uuid, a.userId, b.username, b.nickname, b.avatar,
                   if a.contactType == 1 then GroupApplyTag + a.message else a.message, a.status)
  }

  /** One item per pending (status 0) application, in order. */
  function NewItems(applies: seq<Apply>, briefs: map<string, Brief>): seq<NewContactItem>
  {
    if applies == [] then []
    else
      var r := NewItems(applies[..|applies| - 1], briefs);
      var a := applies[|applies| - 1];
      if a.status != 0 then r else r + [NewItemOf(a, briefs)]
  }

  /**
   * Every item is pending and comes from an application; every pending
   * application has its item, and group applications carry the tag.
   */
  lemma {:induction false} NewItemsExact(applies: seq<Apply>, briefs: map<string, Brief>)
    ensures forall it :: it in NewItems(applies, briefs) ==> it.status == 0
    ensures forall a :: a in applies && a.status == 0 ==> NewItemOf(a, briefs) in NewItems(applies, briefs)
    ensures forall it :: it in NewItems(applies, briefs) ==> exists a :: a in applies && a.status == 0 && it == NewItemOf(a, briefs)
    decreases |applies|
  {
    if applies != [] {
      var init := applies[..|applies| - 1];
      assert applies == init + [applies[|applies| - 1]];
      NewItemsExact(init, briefs);
    }
  }

  /**
   * GetNewContactList: the pending applications to the owner, then those to
   * each group the owner owns (`pending` answers the repository's query of
   * pending applications per target), turned into items. `txErr` says
   * whether one of the transaction's reads fails, `briefsErr` whether the
   * read of the applicants' briefs does; either is a server error.
   */
  function NewContactListSpec(ownerId: string, myGroups: seq<string>, pending: string -> seq<Apply>,
                              briefs: map<string, Brief>, txErr: bool, briefsErr: bool): Result<seq<NewContactItem>>
  {
    if ownerId == [] then Err(ErrParam)
    else if txErr then Err(ErrServerError)
    else
      var all := pending(ownerId) + GroupApplies(myGroups, pending);
      if all == [] then Ok([])
      else if briefsErr then Err(ErrServerError)
      else Ok(NewItems(all, briefs))
  }

  /**
   * The list is served exactly when the transaction's reads succeed and,
   * if there is any application, so does the briefs read; a failed read is a
   * server error. Items are pending, and a group application's message
   * starts with the tag.
   */
  lemma NewContactListTagged(ownerId: string, myGroups: seq<string>, pending: string -> seq<Apply>,
                             briefs: map<string, Brief>, txErr: bool, briefsErr: bool)
    requires ownerId != []
    ensures var r := NewContactListSpec(ownerId, myGroups, pending, briefs, txErr, briefsErr);
      (r.Ok? <==> !txErr && (pending(ownerId) + GroupApplies(myGroups, pending) == [] || !briefsErr))
      && (r.Err? ==> r.error == ErrServerError)
    ensures var r := NewContactListSpec(ownerId, myGroups, pending, briefs, txErr, briefsErr);
      r.Ok? ==>
      (forall it :: it in r.value ==> it.status == 0)
      && (forall a :: a in pending(ownerId) + GroupApplies(myGroups, pending) && a.status == 0 && a.contactType == 1
            ==> exists it :: it in r.value && it.uuid == a.uuid && HasPrefix(it.message, GroupApplyTag))
  {
    var all := pending(ownerId) + GroupApplies(myGroups, pending);
    NewItemsExact(all, briefs);
    forall a | a in all && a.status == 0 && a.contactType == 1
      ensures exists it :: it in NewItems(all, briefs) && it.uuid == a.uuid && HasPrefix(it.message, GroupApplyTag)
    {
      var it := NewItemOf(a, briefs);
      assert (GroupApplyTag + a.message)[..|GroupApplyTag|] == GroupApplyTag;
      assert it in NewItems(all, briefs);
    }
  }

  /** The loop over owned groups that gathers their pending applications. */
  method GatherGroupApplies(myGroups: seq<string>, pending: string -> seq<Apply>) returns (groupApplies: seq<Apply>)
    ensures groupApplies == GroupApplies(myGroups, pending)
  {
    groupApplies := [];
    for i := 0 to |myGroups|
      invariant groupApplies == GroupApplies(myGroups[..i], pending)
    {
      assert myGroups[..i + 1][..i] == myGroups[..i];
      groupApplies := groupApplies + pending(myGroups[i]);
    }
    assert myGroups[..|myGroups|] == myGroups;
  }

  /** The `seen` loop that lists the applicants whose briefs are fetched. */
  method CollectApplicants(all: seq<Apply>) returns (userIDs: seq<string>)
    ensures userIDs == ApplicantIds(all)
  {
    userIDs := [];
    var seen: set<string> := {};
    for i := 0 to |all|
      invariant userIDs == ApplicantIds(all[..i])
      invariant forall x :: x in seen <==> x in userIDs
    {
      assert all[..i + 1][..i] == all[..i];
      var a := all[i];
      if a.userId == [] || a.userId in seen {
        continue;
      }
      seen := seen + {a.userId};
      userIDs := userIDs + [a.userId];
    }
    assert all[..|all|] == all;
  }

  /**
   * GetNewContactList; `queried` is the list of applicants whose briefs are
   * fetched, and `briefs` the answer.
   */
  method GetNewContactList(ownerId: string, myGroups: seq<string>, pending: string -> seq<Apply>,
                           briefs: map<string, Brief>, txErr: bool, briefsErr: bool)
    returns (r: Result<seq<NewContactItem>>, queried: seq<string>)
    ensures r == NewContactListSpec(ownerId, myGroups, pending, briefs, txErr, briefsErr)
    ensures r.Ok? && r.value != [] ==> queried == ApplicantIds(pending(ownerId) + GroupApplies(myGroups, pending))
  {
    queried := [];
    if ownerId == [] {
      return Err(ErrParam), queried;
    }
    if txErr {
      return Err(ErrServerError), queried;
    }
    var friendApplies := pending(ownerId);
    var groupApplies := GatherGroupApplies(myGroups, pending);
    var all := friendApplies + groupApplies;
    if |all| == 0 {
      return Ok([]), queried;
    }
    queried := CollectApplicants(all);
    if briefsErr {
      return Err(ErrServerError), queried;
    }
    var out: seq<NewContactItem> := [];
    for i := 0 to |all|
      invariant out == NewItems(all[..i], briefs)
    {
      assert all[..i + 1][..i] == all[..i];
      var a := all[i];
      if a.status != 0 {
        continue;
      }
      var item := NewContactItem(a.uuid, a.userId, [], [], [], a.message, a.status);
      if a.userId in briefs {
        var b := briefs[a.userId];
        item := item.(username := b.username, nickname := b.nickname, avatar := b.avatar);
      }
      if a.contactType == 1 {
        item := item.(message := GroupApplyTag + item.message);
      }
      out := out + [item];
    }
    assert all[..|all|] == all;
    return Ok(out), queried;
  }

  // ---------------------------------------------------------------------
  // The service object
  // ---------------------------------------------------------------------

  class ContactServiceImpl {
    var friends: map<(string, string), int>
    var groupRels: map<(string, string), int>
    var groups: map<string, GS.GroupInfo>
    var applies: map<(string, string, int), Apply>
    var contactQueue: seq<(string, string)>
    var groupQueue: seq<(string, string)>
    /** Account status of every user the user repository knows. */
    const users: map<string, int>
    /** Whether an asynchronous ingest service is wired in. */
    const hasIngest: bool

    function Snapshot(): State
      reads this
    {
      State(friends, groupRels, groups, applies, contactQueue, groupQueue)
    }

    constructor(users: map<string, int>, hasIngest: bool, st: State)
      ensures Snapshot() == st && this.users == users && this.hasIngest == hasIngest
    {
      this.users := users;
      this.hasIngest := hasIngest;
      friends := st.friends;
      groupRels := st.groupRels;
      groups := st.groups;
      applies := st.applies;
      contactQueue := st.contactQueue;
      groupQueue := st.groupQueue;
    }

    method ApplyContact(ownerId: string, contactId: string, message: string, newId: string, rd: ApplyReads, writeErr: Option<Error>)
      returns (r: Result<string>)
      modifies this
      ensures (Snapshot(), r) == ApplySpec(old(Snapshot()), users, ownerId, contactId, message, newId, rd, writeErr)
    {
      if ownerId == [] || contactId == [] {
        return Err(ErrParam);
      }
      if ownerId == contactId {
        return Err(Error(BadRequest, "不能添加自己"));
      }
      var contactType := 0;
      if HasPrefix(contactId, "G") {
        contactType := 1;
      }
      var refusal := CheckApply(ownerId, contactId, contactType, rd);
      if refusal.Some? {
        return Err(refusal.value);
      }
      if writeErr.Some? {
        return Err(ErrServerError);
      }
      var key := (ownerId, contactId, contactType);
      var msg := message;
      if msg == [] && contactType == 1 {
        msg := JoinGroupMessage;
      }
      var a: Apply;
      if key in applies {
        a := applies[key];
        a := a.(status := ApplyPending, message := msg);
        if a.uuid == [] {
          a := a.(uuid := newId);
        }
      } else {
        a := Apply(newId, ownerId, contactId, contactType, ApplyPending, msg);
      }
      applies := applies[key := a];
      return Ok(a.uuid);
    }

    /** The checks of ApplyContact's transaction before the application is written. */
    method CheckApply(ownerId: string, contactId: string, contactType: int, rd: ApplyReads) returns (refusal: Option<Error>)
      ensures refusal == ApplyRefusal(Snapshot(), users, ownerId, contactId, contactType, rd)
    {
      if contactType == 0 {
        if rd.targetErr {
          return Some(ErrServerError);
        }
        if contactId !in users {
          return Some(Error(NotFound, "用户不存在"));
        }
        if users[contactId] != 0 {
          return Some(Error(Forbidden, "用户不可用"));
        }
      } else {
        if rd.targetErr {
          return Some(ErrServerError);
        }
        if contactId !in groups {
          return Some(Error(NotFound, "群组不存在"));
        }
        if groups[contactId].status != 0 {
          return Some(Error(Forbidden, "群组状态异常"));
        }
        if !rd.relationErr && (ownerId, contactId) in groupRels {
          var s := groupRels[(ownerId, contactId)];
          if s == 0 || s == 5 {
            return Some(Error(BadRequest, "已在群聊中"));
          }
        }
      }
      if contactType == 0 && rd.relationErr {
        return Some(ErrServerError);
      }
      if contactType == 0 && (ownerId, contactId) in friends {
        var s := friends[(ownerId, contactId)];
        if s == 0 {
          return Some(Error(BadRequest, "已是好友"));
        } else if s == 1 {
          return Some(Error(BadRequest, "您已将对方拉黑"));
        } else if s == 2 {
          return Some(Error(Forbidden, "对方已将您拉黑"));
        }
      }
      return None;
    }

    method PassContactApply(ownerId: string, applyId: string, found: Option<(string, string, int)>, applyErr: bool,
                            listed: Option<seq<string>>, writeErr: Option<Error>) returns (r: Status)
      requires LookedUp(applies, applyId, found)
      modifies this
      ensures (Snapshot(), r) == PassSpec(old(Snapshot()), hasIngest, ownerId, applyId, found, applyErr, listed, writeErr)
    {
      if ownerId == [] || applyId == [] {
        return Failure(ErrParam);
      }
      if applyErr {
        return Failure(ErrServerError);
      }
      if found.None? {
        return Failure(Error(NotFound, "申请不存在"));
      }
      var key := found.value;
      var a := applies[key];
      if a.status == ApplyPassed {
        return Success;
      }
      if a.status == ApplyBlocked {
        return Failure(Error(Forbidden, "该申请已被拉黑"));
      }
      if a.contactType == 0 {
        r := PassFriendApply(ownerId, key, writeErr);
        return;
      }
      if a.contactType == 1 {
        r := PassGroupApply(ownerId, key, listed, writeErr);
        return;
      }
      return Failure(Error(BadRequest, "不支持的申请类型"));
    }

    method PassFriendApply(ownerId: string, key: (string, string, int), writeErr: Option<Error>) returns (r: Status)
      requires key in applies
      modifies this
      ensures (Snapshot(), r) == PassFriend(old(Snapshot()), hasIngest, ownerId, key, writeErr)
    {
      var a := applies[key];
      if a.contactId != ownerId {
        return Failure(Error(Forbidden, "无权操作该申请"));
      }
      if writeErr.Some? {
        return Failure(ErrServerError);
      }
      applies := applies[key := a.(status := ApplyPassed)];
      friends := friends[(a.userId, a.contactId) := 0];
      friends := friends[(a.contactId, a.userId) := 0];
      if hasIngest && a.userId != [] && a.contactId != [] {
        contactQueue := contactQueue + [(a.userId, a.contactId)];
        contactQueue := contactQueue + [(a.contactId, a.userId)];
        assert contactQueue == old(contactQueue) + [(a.userId, a.contactId), (a.contactId, a.userId)];
      }
      return Success;
    }

    method PassGroupApply(ownerId: string, key: (string, string, int), listed: Option<seq<string>>,
                          writeErr: Option<Error>) returns (r: Status)
      requires key in applies
      modifies this
      ensures (Snapshot(), r) == PassGroup(old(Snapshot()), hasIngest, ownerId, key, listed, writeErr)
    {
      var a := applies[key];
      var gid := a.contactId;
      if gid !in groups {
        return Failure(PlainErr(RecordNotFound));
      }
      var g := groups[gid];
      if g.status != 0 {
        return Failure(Error(Forbidden, "群组状态异常"));
      }
      if g.ownerId != ownerId {
        return Failure(Error(Forbidden, "只有群主可以审批入群申请"));
      }
      if writeErr.Some? {
        return Failure(writeErr.value);
      }
      applies := applies[key := a.(status := ApplyPassed)];
      groupRels := groupRels[(a.userId, gid) := 0];
      var groupMembers: seq<string> := [];
      if listed.Some? {
        groupMembers := listed.value;
        g := g.(members := groupMembers, memberCnt := |groupMembers|);
      }
      groups := groups[gid := g];
      if hasIngest && gid != [] {
        var members := groupMembers;
        if |members| == 0 && a.userId != [] {
          members := [a.userId];
        }
        var queued := GroupRefreshes(members, gid);
        groupQueue := groupQueue + queued;
      }
      return Success;
    }

    method RefuseContactApply(ownerId: string, applyId: string, found: Option<(string, string, int)>, applyErr: bool,
                              writeErr: Option<Error>) returns (r: Status)
      requires LookedUp(applies, applyId, found)
      modifies this
      ensures (Snapshot(), r) == RefuseSpec(old(Snapshot()), ownerId, applyId, found, applyErr, writeErr)
    {
      if ownerId == [] || applyId == [] {
        return Failure(ErrParam);
      }
      if applyErr {
        return Failure(ErrServerError);
      }
      if found.None? {
        return Failure(Error(NotFound, "申请不存在"));
      }
      var key := found.value;
      var a := applies[key];
      if a.status == ApplyRefused {
        return Success;
      }
      if a.status == ApplyPassed {
        return Failure(Error(BadRequest, "已通过，无法拒绝"));
      }
      if a.status == ApplyBlocked {
        return Failure(Error(Forbidden, "该申请已被拉黑"));
      }
      if a.contactType == 0 {
        if a.contactId != ownerId {
          return Failure(Error(Forbidden, "无权操作该申请"));
        }
      } else if a.contactType == 1 {
        if a.contactId !in groups {
          return Failure(PlainErr(RecordNotFound));
        }
        if groups[a.contactId].ownerId != ownerId {
          return Failure(Error(Forbidden, "只有群主可以审批"));
        }
      } else {
        return Failure(Error(BadRequest, "不支持的申请类型"));
      }
      if writeErr.Some? {
        return Failure(ErrServerError);
      }
      applies := applies[key := a.(status := ApplyRefused)];
      return Success;
    }
  }

  /** The EnqueueGroupProfile loop after a group application passes. */
  method GroupRefreshes(members: seq<string>, gid: string) returns (queued: seq<(string, string)>)
    ensures queued == GS.Pairs(members, gid)
  {
    queued := [];
    for i := 0 to |members|
      invariant queued == GS.Pairs(members[..i], gid)
    {
      assert members[..i + 1][..i] == members[..i];
      queued := queued + [(members[i], gid)];
    }
    assert members[..|members|] == members;
  }
}
