/**
 * The group lifecycle of the contact module (groupServiceImpl): creating a
 * group with its member list, inviting members, leaving and dismissing.
 *
 * The service's view of the database is a `State`: the group rows by uuid,
 * the type-1 (group) contact rows keyed by (user id, group id) and holding
 * their status, and the profile refreshes queued to the asynchronous ingest
 * service. Each operation runs its writes in one transaction, so a failing
 * write leaves the whole state as it was.
 */
module GroupService {
  import opened Common
  import opened GoStrings
  import opened Seqs

  /** A group row; `members` is the decoded Members JSON array. */
  datatype GroupInfo = GroupInfo(
    uuid: string,
    name: string,
    notice: string,
    members: seq<string>,
    memberCnt: int,
    ownerId: string,
    addMode: int,
    avatar: string,
    status: int)

  /** Group statuses: 0 is in use, 2 is dismissed. */
  const GroupNormal := 0
  const GroupDismissed := 2

  /** Contact-row statuses: 0 is an ordinary member, 6 a member who left, 8 a member of a dismissed group. */
  const RelNormal := 0
  const RelQuit := 6
  const RelDismissed := 8

  /** Statuses 0 and 5 both count as being in the group. */
  predicate InGroup(status: int) { status == 0 || status == 5 }

  const DefaultGroupAvatar := "https://cube.elemecdn.com/0/88/03b0d39583f48206768a7534e55bcpng.png"

  datatype State = State(
    groups: map<string, GroupInfo>,
    rels: map<(string, string), int>,
    enqueued: seq<(string, string)>)

  /** The profile refreshes queued for `ids` in group `gid`, in order. */
  function Pairs(ids: seq<string>, gid: string): (r: seq<(string, string)>)
    ensures |r| == |ids|
    ensures forall i :: 0 <= i < |ids| ==> r[i] == (ids[i], gid)
  {
    if ids == [] then [] else Pairs(ids[..|ids| - 1], gid) + [(ids[|ids| - 1], gid)]
  }

  lemma PairsAppend(a: seq<string>, b: seq<string>, gid: string)
    ensures Pairs(a + b, gid) == Pairs(a, gid) + Pairs(b, gid)
  {
    var l, r := Pairs(a + b, gid), Pairs(a, gid) + Pairs(b, gid);
    forall i | 0 <= i < |l|
      ensures l[i] == r[i]
    {
      if i >= |a| {
        assert (a + b)[i] == b[i - |a|];
      }
    }
  }

  // ---------------------------------------------------------------------
  // The member list of a new group
  // ---------------------------------------------------------------------

  /** An id as the member list keeps it: trimmed and not empty. */
  predicate IsCleanId(s: string) { s != [] && TrimSpace(s) == s }

  predicate AllClean(ids: seq<string>)
  {
    forall k :: 0 <= k < |ids| ==> IsCleanId(ids[k])
  }

  /** Every entry of `xs`, trimmed. */
  function TrimAll(xs: seq<string>): (r: seq<string>)
    ensures |r| == |xs|
    ensures forall i :: 0 <= i < |xs| ==> r[i] == TrimSpace(xs[i])
  {
    if xs == [] then [] else TrimAll(xs[..|xs| - 1]) + [TrimSpace(xs[|xs| - 1])]
  }

  /** The addMember closure: trim, then skip blanks and ids already listed. */
  function AddMember(ids: seq<string>, id: string): seq<string>
  {
    var t := TrimSpace(id);
    if t == [] || t in ids then ids else ids + [t]
  }

  /** addMember applied to every entry of `xs` in turn. */
  function Collect(ids: seq<string>, xs: seq<string>): seq<string>
  {
    if xs == [] then ids else AddMember(Collect(ids, xs[..|xs| - 1]), xs[|xs| - 1])
  }

  /** memberIDs of CreateGroup: the owner first, then the requested members. */
  function MemberList(ownerId: string, memberIds: seq<string>): seq<string>
  {
    Collect([], [ownerId] + memberIds)
  }

  /** One addMember step keeps the list as a prefix and adds at most the trimmed id. */
  lemma AddMemberStep(c: seq<string>, id: string)
    ensures var r := AddMember(c, id);
      |c| <= |r| && r[..|c|] == c
      && (forall x :: x in r <==> x in c || (x != [] && x == TrimSpace(id)))
  {
    var t := TrimSpace(id);
    if t != [] && t !in c {
      assert (c + [t])[..|c|] == c;
    }
  }

  lemma AppendClean(c: seq<string>, t: string)
    requires Distinct(c) && AllClean(c) && IsCleanId(t) && t !in c
    ensures Distinct(c + [t]) && AllClean(c + [t])
  {
  }

  /** One addMember step keeps the list free of duplicates and blanks. */
  lemma AddMemberClean(c: seq<string>, id: string)
    requires Distinct(c) && AllClean(c)
    ensures Distinct(AddMember(c, id)) && AllClean(AddMember(c, id))
  {
    var t := TrimSpace(id);
    if t != [] && t !in c {
      TrimSpaceIdempotent(id);
      AppendClean(c, t);
    }
  }

  /**
   * Collecting keeps the ids already listed as a prefix and lists exactly
   * the ids already there and the non-empty trimmed entries of `xs`.
   */
  lemma {:induction false} CollectContents(ids: seq<string>, xs: seq<string>)
    ensures var r := Collect(ids, xs);
      |ids| <= |r| && r[..|ids|] == ids
      && forall x :: x in r <==> x in ids || (x != [] && x in TrimAll(xs))
    decreases |xs|
  {
    if xs != [] {
      var init := xs[..|xs| - 1];
      var c := Collect(ids, init);
      CollectContents(ids, init);
      AddMemberStep(c, xs[|xs| - 1]);
      assert Collect(ids, xs)[..|c|] == c;
      assert Collect(ids, xs)[..|ids|] == Collect(ids, xs)[..|c|][..|ids|];
    }
  }

  /** Collecting never lists an id twice and lists only trimmed non-empty ids. */
  lemma {:induction false} CollectClean(ids: seq<string>, xs: seq<string>)
    requires Distinct(ids) && AllClean(ids)
    ensures Distinct(Collect(ids, xs)) && AllClean(Collect(ids, xs))
    decreases |xs|
  {
    if xs != [] {
      CollectClean(ids, xs[..|xs| - 1]);
      AddMemberClean(Collect(ids, xs[..|xs| - 1]), xs[|xs| - 1]);
    }
  }

  lemma {:induction false} CollectAppend(ids: seq<string>, xs: seq<string>, ys: seq<string>)
    ensures Collect(ids, xs + ys) == Collect(Collect(ids, xs), ys)
    decreases |ys|
  {
    if ys == [] {
      assert xs + ys == xs;
    } else {
      assert (xs + ys)[..|xs + ys| - 1] == xs + ys[..|ys| - 1];
      CollectAppend(ids, xs, ys[..|ys| - 1]);
    }
  }

  /** The member list is the trimmed owner, if any, extended by the requested ids. */
  lemma MemberListStart(ownerId: string, memberIds: seq<string>)
    ensures AddMember([], ownerId) == if IsBlank(ownerId) then [] else [TrimSpace(ownerId)]
    ensures MemberList(ownerId, memberIds) == Collect(AddMember([], ownerId), memberIds)
    ensures Distinct(AddMember([], ownerId)) && AllClean(AddMember([], ownerId))
  {
    assert Collect([], [ownerId]) == AddMember([], ownerId) by {
      assert [ownerId][..0] == [];
    }
    CollectAppend([], [ownerId], memberIds);
    AddMemberClean([], ownerId);
  }

  /** The member list of a new group holds no duplicate and no blank id. */
  lemma MemberListClean(ownerId: string, memberIds: seq<string>)
    ensures Distinct(MemberList(ownerId, memberIds)) && AllClean(MemberList(ownerId, memberIds))
  {
    MemberListStart(ownerId, memberIds);
    CollectClean(AddMember([], ownerId), memberIds);
  }

  /**
   * The member list holds exactly the trimmed non-empty owner and requested
   * ids, and the trimmed owner comes first whenever it is not blank.
   */
  lemma MemberListContents(ownerId: string, memberIds: seq<string>)
    ensures var r := MemberList(ownerId, memberIds);
      (forall x :: x in r <==> x != [] && (x == TrimSpace(ownerId) || x in TrimAll(memberIds)))
      && (!IsBlank(ownerId) ==> r != [] && r[0] == TrimSpace(ownerId))
  {
    var first := AddMember([], ownerId);
    var r := MemberList(ownerId, memberIds);
    MemberListStart(ownerId, memberIds);
    CollectContents(first, memberIds);
    assert forall x :: x in first <==> x != [] && x == TrimSpace(ownerId);
    if !IsBlank(ownerId) {
      assert r[..1] == first;
      assert r[0] == r[..1][0];
    }
  }

  /** The first member whose account is missing or not in status 0, as an error. */
  function FirstBadMember(ids: seq<string>, users: map<string, int>): (r: Option<Error>)
    ensures r.None? <==> forall k :: 0 <= k < |ids| ==> ids[k] in users && users[ids[k]] == 0
    ensures r.Some? ==> r.value in {Error(NotFound, "成员不存在"), Error(Forbidden, "成员状态异常")}
  {
    if ids == [] then None
    else if ids[0] !in users then Some(Error(NotFound, "成员不存在"))
    else if users[ids[0]] != 0 then Some(Error(Forbidden, "成员状态异常"))
    else
      var r := FirstBadMember(ids[1..], users);
      assert forall k :: 1 <= k < |ids| ==> ids[k] == ids[1..][k - 1];
      r
  }

  // ---------------------------------------------------------------------
  // CreateGroup
  // ---------------------------------------------------------------------

  datatype CreateGroupRequest = CreateGroupRequest(
    ownerId: string, name: string, notice: string, memberIds: seq<string>)

  /** Every id of `ids` gets a status-0 contact row for group `gid`. */
  function JoinAll(rels: map<(string, string), int>, ids: seq<string>, gid: string): (r: map<(string, string), int>)
    ensures forall k :: k in r <==> k in rels || (k.1 == gid && k.0 in ids)
    ensures forall k :: k in r ==> r[k] == (if k.1 == gid && k.0 in ids then RelNormal else rels[k])
  {
    if ids == [] then rels
    else
      assert ids == ids[..|ids| - 1] + [ids[|ids| - 1]];
      JoinAll(rels, ids[..|ids| - 1], gid)[(ids[|ids| - 1], gid) := RelNormal]
  }

  /**
   * CreateGroup with `gid` the generated group id, `users` the account
   * statuses, `briefsErr` whether reading the members' briefs fails and
   * `writeErr` the failure, if any, of the transaction's writes. An id
   * already in use makes the insert fail like any write.
   */
  function CreateSpec(st: State, users: map<string, int>, briefsErr: bool, hasIngest: bool, req: CreateGroupRequest,
                      gid: string, writeErr: Option<Error>): (State, Result<GroupInfo>)
  {
    var name := TrimSpace(req.name);
    var notice := TrimSpace(req.notice);
    if req.ownerId == [] || name == [] then (st, Err(ErrParam))
    else
      var ids := MemberList(req.ownerId, req.memberIds);
      var bad := FirstBadMember(ids, users);
      if briefsErr then (st, Err(ErrServerError))
      else if bad.Some? then (st, Err(bad.value))
      else if writeErr.Some? || gid in st.groups then (st, Err(ErrServerError))
      else
        var g := GroupInfo(gid, name, notice, ids, |ids|, req.ownerId, 0, DefaultGroupAvatar, GroupNormal);
        (CreateCommit(st, hasIngest, g), Ok(g))
  }

  /** The writes of a permitted creation: the group row, its members' rows, the refreshes. */
  function CreateCommit(st: State, hasIngest: bool, g: GroupInfo): State
  {
    State(st.groups[g.uuid := g], JoinAll(st.rels, g.members, g.uuid),
          if hasIngest then st.enqueued + Pairs(g.members, g.uuid) else st.enqueued)
  }

  /**
   * A blank owner or name is refused before anything else, a failed read
   * of the members' briefs is a server error; every refusal leaves the
   * state as it was.
   */
  lemma CreateRefusals(st: State, users: map<string, int>, briefsErr: bool, hasIngest: bool, req: CreateGroupRequest,
                       gid: string, writeErr: Option<Error>)
    ensures var (st', r) := CreateSpec(st, users, briefsErr, hasIngest, req, gid, writeErr);
      (req.ownerId == [] || IsBlank(req.name) ==> r == Err(ErrParam))
      && (req.ownerId != [] && !IsBlank(req.name) && briefsErr ==> r == Err(ErrServerError))
      && (r.Err? ==> st' == st)
  {
  }

  /**
   * A group is created exactly when the owner and trimmed name are
   * present, the briefs can be read, every listed member exists with
   * account status 0, and the writes succeed; it then holds the member list, MemberCnt is its length,
   * and each member becomes a status-0 member of it.
   */
  lemma CreateSucceedsIff(st: State, users: map<string, int>, briefsErr: bool, hasIngest: bool, req: CreateGroupRequest,
                          gid: string, writeErr: Option<Error>)
    ensures var (st', r) := CreateSpec(st, users, briefsErr, hasIngest, req, gid, writeErr);
      var ids := MemberList(req.ownerId, req.memberIds);
      (r.Ok? <==> req.ownerId != [] && !IsBlank(req.name) && !briefsErr
                  && (forall k :: 0 <= k < |ids| ==> ids[k] in users && users[ids[k]] == 0)
                  && writeErr.None? && gid !in st.groups)
      && (r.Ok? ==>
            r.value.uuid == gid && r.value.members == ids && r.value.memberCnt == |ids|
            && r.value.status == GroupNormal && r.value.name == TrimSpace(req.name)
            && st'.groups == st.groups[gid := r.value]
            && (forall m :: m in ids ==> (m, gid) in st'.rels && st'.rels[(m, gid)] == RelNormal))
  {
  }

  // ---------------------------------------------------------------------
  // InviteGroupMembers
  // ---------------------------------------------------------------------

  /** Already a member of group `gid` in `rels`. */
  predicate IsMember(rels: map<(string, string), int>, u: string, gid: string)
  {
    (u, gid) in rels && InGroup(rels[(u, gid)])
  }

  /**
   * The upsert loop of InviteGroupMembers: empty ids are skipped, members
   * (status 0 or 5) are left alone, everyone else gets a status-0 row and
   * is counted.
   */
  function InviteAll(rels: map<(string, string), int>, ids: seq<string>, gid: string): (map<(string, string), int>, nat)
  {
    if ids == [] then (rels, 0)
    else
      var (table, n) := InviteAll(rels, ids[..|ids| - 1], gid);
      var u := ids[|ids| - 1];
      if u == [] || IsMember(table, u, gid) then (table, n)
      else (table[(u, gid) := RelNormal], n + 1)
  }

  /** The invited ids that were not members before. */
  function NewMembers(rels: map<(string, string), int>, ids: seq<string>, gid: string): set<string>
  {
    set u | u in ids && u != [] && !IsMember(rels, u, gid)
  }

  /**
   * After the loop the members of `gid` are the old members and the
   * non-empty invited ids, and old members keep their row unchanged.
   */
  lemma {:induction false} InviteAllMembers(rels: map<(string, string), int>, ids: seq<string>, gid: string)
    ensures var table := InviteAll(rels, ids, gid).0;
      (forall u :: IsMember(table, u, gid) <==> IsMember(rels, u, gid) || (u != [] && u in ids))
      && (forall u :: IsMember(rels, u, gid) ==> table[(u, gid)] == rels[(u, gid)])
    decreases |ids|
  {
    if ids != [] {
      assert ids == ids[..|ids| - 1] + [ids[|ids| - 1]];
      InviteAllMembers(rels, ids[..|ids| - 1], gid);
    }
  }

  /** The loop touches no contact row of another group. */
  lemma {:induction false} InviteAllOthers(rels: map<(string, string), int>, ids: seq<string>, gid: string)
    ensures var table := InviteAll(rels, ids, gid).0;
      forall k: (string, string) :: k.1 != gid ==> (k in table <==> k in rels) && (k in rels ==> table[k] == rels[k])
    decreases |ids|
  {
    if ids != [] {
      InviteAllOthers(rels, ids[..|ids| - 1], gid);
    }
  }

  /** The loop counts exactly the invited ids that were not members yet. */
  lemma {:induction false} InviteAllCount(rels: map<(string, string), int>, ids: seq<string>, gid: string)
    ensures InviteAll(rels, ids, gid).1 == |NewMembers(rels, ids, gid)|
    decreases |ids|
  {
    if ids != [] {
      var init := ids[..|ids| - 1];
      var u := ids[|ids| - 1];
      assert ids == init + [u];
      InviteAllCount(rels, init, gid);
      InviteAllMembers(rels, init, gid);
      var table := InviteAll(rels, init, gid).0;
      var before := NewMembers(rels, init, gid);
      var after := NewMembers(rels, ids, gid);
      if u == [] || IsMember(table, u, gid) {
        assert after == before;
      } else {
        assert after == before + {u};
        assert u !in before;
      }
    }
  }

  lemma {:induction false} InviteCountGrows(rels: map<(string, string), int>, ids: seq<string>, gid: string, i: nat)
    requires i <= |ids|
    ensures InviteAll(rels, ids[..i], gid).1 <= InviteAll(rels, ids, gid).1
    decreases |ids| - i
  {
    if i < |ids| {
      InviteCountGrows(rels, ids, gid, i + 1);
      assert ids[..i + 1][..i] == ids[..i];
    } else {
      assert ids[..i] == ids;
    }
  }

  /**
   * InviteGroupMembers; `listed` is what the repository's member query
   * returns after the upserts (None when it fails).
   */
  function InviteSpec(st: State, hasIngest: bool, memberIds: seq<string>, gid: string,
                      listed: Option<seq<string>>, writeErr: Option<Error>): (State, Status)
  {
    if memberIds == [] then (st, Success)
    else if gid !in st.groups then (st, Failure(Error(NotFound, "群组不存在")))
    else
      var g := st.groups[gid];
      if g.status != GroupNormal then (st, Failure(Error(Forbidden, "群组已解散或状态异常，无法邀请成员")))
      else
        var (table, added) := InviteAll(st.rels, memberIds, gid);
        if added == 0 then (st, Success)
        else if writeErr.Some? then (st, Failure(ErrServerError))
        else
          var updated := if listed.Some? then listed.value else [];
          var g' := if listed.Some? then g.(members := updated, memberCnt := |updated|) else g;
          (State(st.groups[gid := g'], table, if hasIngest then st.enqueued + Pairs(updated, gid) else st.enqueued),
           Success)
  }

  /**
   * Inviting changes nothing unless someone new joins: an empty list, or
   * one whose non-empty ids are all members already (status 0 or 5),
   * succeeds without touching any row.
   */
  lemma InviteNoNewcomers(st: State, hasIngest: bool, memberIds: seq<string>, gid: string,
                          listed: Option<seq<string>>, writeErr: Option<Error>)
    requires NewMembers(st.rels, memberIds, gid) == {}
    requires gid in st.groups && st.groups[gid].status == GroupNormal
    ensures InviteSpec(st, hasIngest, memberIds, gid, listed, writeErr) == (st, Success)
  {
    InviteAllCount(st.rels, memberIds, gid);
  }

  /**
   * A successful invitation into an active group makes every non-empty
   * invited id a member, leaves existing members' rows as they were, and
   * refuses groups that are missing or not in use.
   */
  lemma InviteEffect(st: State, hasIngest: bool, memberIds: seq<string>, gid: string,
                     listed: Option<seq<string>>, writeErr: Option<Error>)
    ensures var (st', r) := InviteSpec(st, hasIngest, memberIds, gid, listed, writeErr);
      (memberIds != [] && gid !in st.groups ==> r == Failure(Error(NotFound, "群组不存在")))
      && (memberIds != [] && gid in st.groups && st.groups[gid].status != GroupNormal ==> r.Failure? && st' == st)
      && (r.Success? ==>
            (forall u :: u in memberIds && u != [] ==> IsMember(st'.rels, u, gid))
            && (forall u :: IsMember(st.rels, u, gid) ==>
                  (u, gid) in st'.rels && st'.rels[(u, gid)] == st.rels[(u, gid)]))
  {
    InviteAllMembers(st.rels, memberIds, gid);
    var (table, added) := InviteAll(st.rels, memberIds, gid);
    if added == 0 {
      InviteAllCount(st.rels, memberIds, gid);
      forall u | u in memberIds && u != []
        ensures IsMember(st.rels, u, gid)
      {
        assert u !in NewMembers(st.rels, memberIds, gid);
      }
    }
  }

  // ---------------------------------------------------------------------
  // LeaveGroup
  // ---------------------------------------------------------------------

  /** `xs` with every occurrence of `u` removed, order kept. */
  function Without(xs: seq<string>, u: string): (r: seq<string>)
    ensures |r| <= |xs|
  {
    if xs == [] then [] else
      var rest := Without(xs[..|xs| - 1], u);
      if xs[|xs| - 1] != u then rest + [xs[|xs| - 1]] else rest
  }

  /** Removing `u` removes exactly `u`, and nothing when `u` is absent. */
  lemma {:induction false} WithoutExactly(xs: seq<string>, u: string)
    ensures forall m :: m in Without(xs, u) <==> m in xs && m != u
    ensures u !in xs ==> Without(xs, u) == xs
    decreases |xs|
  {
    if xs != [] {
      assert xs == xs[..|xs| - 1] + [xs[|xs| - 1]];
      WithoutExactly(xs[..|xs| - 1], u);
    }
  }

  /** LeaveGroup: user `uid` leaves group `gid`. */
  function LeaveSpec(st: State, hasIngest: bool, uid: string, gid: string, writeErr: Option<Error>): (State, Status)
  {
    if gid !in st.groups then (st, Failure(Error(NotFound, "群组不存在")))
    else
      var g := st.groups[gid];
      if g.status != GroupNormal then (st, Failure(Error(Forbidden, "群组已解散或状态异常，无法退群")))
      else if g.ownerId == uid then (st, Failure(Error(Forbidden, "群主不能退群，请先转让群主或解散群")))
      else if !IsMember(st.rels, uid, gid) then (st, Failure(Error(BadRequest, "非群成员")))
      else if writeErr.Some? then (st, Failure(writeErr.value))
      else (LeaveCommit(st, hasIngest, g, uid, gid), Success)
  }

  /** The writes of a permitted leave: status 6, the shorter member list, the refreshes. */
  function LeaveCommit(st: State, hasIngest: bool, g: GroupInfo, uid: string, gid: string): State
  {
    var rest := Without(g.members, uid);
    State(st.groups[gid := g.(members := rest, memberCnt := |rest|)],
          st.rels[(uid, gid) := RelQuit],
          if hasIngest then st.enqueued + Pairs([uid] + rest, gid) else st.enqueued)
  }

  /**
   * The owner cannot leave and neither can a non-member; a member who
   * leaves gets status 6, drops out of the member list (nobody else does),
   * and MemberCnt becomes the new list's length.
   */
  lemma LeaveEffect(st: State, hasIngest: bool, uid: string, gid: string, writeErr: Option<Error>)
    ensures var (st', r) := LeaveSpec(st, hasIngest, uid, gid, writeErr);
      (r.Failure? ==> st' == st)
      && (gid in st.groups && st.groups[gid].ownerId == uid ==> r.Failure?)
      && (!IsMember(st.rels, uid, gid) ==> r.Failure?)
      && (r.Success? ==>
            var g := st.groups[gid];
            var g' := st'.groups[gid];
            st'.rels[(uid, gid)] == RelQuit
            && (forall m :: m in g'.members <==> m in g.members && m != uid)
            && g'.memberCnt == |g'.members|)
  {
    if gid in st.groups {
      WithoutExactly(st.groups[gid].members, uid);
    }
  }

  // ---------------------------------------------------------------------
  // DismissGroup
  // ---------------------------------------------------------------------

  /** The entries of `xs` that are not blank, order kept. */
  function NonBlank(xs: seq<string>): (r: seq<string>)
    ensures |r| <= |xs|
  {
    if xs == [] then [] else
      var rest := NonBlank(xs[..|xs| - 1]);
      if IsBlank(xs[|xs| - 1]) then rest else rest + [xs[|xs| - 1]]
  }

  /** Exactly the non-blank entries are kept. */
  lemma {:induction false} NonBlankExactly(xs: seq<string>)
    ensures forall m :: m in NonBlank(xs) <==> m in xs && !IsBlank(m)
    decreases |xs|
  {
    if xs != [] {
      assert xs == xs[..|xs| - 1] + [xs[|xs| - 1]];
      NonBlankExactly(xs[..|xs| - 1]);
    }
  }

  /** UpdateGroupContactsStatus(gid, 8): every contact row of group `gid` moves to status 8. */
  function DismissRels(rels: map<(string, string), int>, gid: string): (r: map<(string, string), int>)
    ensures r.Keys == rels.Keys
    ensures forall k :: k in rels ==> r[k] == (if k.1 == gid then RelDismissed else rels[k])
  {
    map k | k in rels :: if k.1 == gid then RelDismissed else rels[k]
  }

  /**
   * DismissGroup: user `uid` dismisses group `gid`. After the transaction
   * commits, a second transaction moves the group's contact rows to status
   * 8; its error `statusErr` is only logged, so it leaves the rows as they
   * were without changing the answer.
   */
  function DismissSpec(st: State, hasIngest: bool, uid: string, gid: string, writeErr: Option<Error>,
                       statusErr: Option<Error>): (State, Status)
  {
    if gid !in st.groups then (st, Failure(Error(NotFound, "群组不存在")))
    else
      var g := st.groups[gid];
      if g.ownerId != uid then (st, Failure(Error(Forbidden, "非群主无法解散群聊")))
      else if g.status == GroupDismissed then (st, Failure(Error(Forbidden, "群组已解散，请勿重复操作")))
      else if g.status != GroupNormal then (st, Failure(Error(Forbidden, "群组状态异常，无法解散")))
      else if writeErr.Some? then (st, Failure(writeErr.value))
      else
        (State(st.groups[gid := g.(status := GroupDismissed)],
               if statusErr.None? && g.uuid != [] then DismissRels(st.rels, g.uuid) else st.rels,
               if hasIngest then st.enqueued + Pairs(NonBlank(g.members), g.uuid) else st.enqueued),
         Success)
  }

  /**
   * Only the owner of an active group can dismiss it; dismissal sets
   * status 2, and, unless the follow-up update fails, marks every contact
   * row of the group (the group named by the row's uuid, which is `gid` in a
   * consistent state) with status 8 and no other row; dismissing the same
   * group again is refused as a repeat without changing anything.
   */
  lemma DismissEffect(st: State, hasIngest: bool, uid: string, gid: string, writeErr: Option<Error>,
                      statusErr: Option<Error>)
    ensures var (st', r) := DismissSpec(st, hasIngest, uid, gid, writeErr, statusErr);
      (r.Failure? ==> st' == st)
      && (r.Success? <==> gid in st.groups && st.groups[gid].ownerId == uid
                          && st.groups[gid].status == GroupNormal && writeErr.None?)
      && (r.Success? ==>
            gid in st'.groups && st'.groups[gid].status == GroupDismissed
            && st'.rels.Keys == st.rels.Keys
            && (forall k :: k in st.rels ==>
                  st'.rels[k] == (if statusErr.None? && k.1 == st.groups[gid].uuid && k.1 != []
                                  then RelDismissed else st.rels[k]))
            && DismissSpec(st', hasIngest, uid, gid, writeErr, statusErr)
               == (st', Failure(Error(Forbidden, "群组已解散，请勿重复操作"))))
  {
  }

  /** Once a dismissal and its follow-up update succeed, no contact row counts as being in the group. */
  lemma DismissedNobodyInGroup(st: State, hasIngest: bool, uid: string, gid: string, writeErr: Option<Error>)
    requires Consistent(st) && gid != []
    ensures var (st', r) := DismissSpec(st, hasIngest, uid, gid, writeErr, None);
      r.Success? ==> forall k :: k in st'.rels && k.1 == gid ==> !InGroup(st'.rels[k])
  {
  }

  // ---------------------------------------------------------------------
  // The invariant the four operations keep
  // ---------------------------------------------------------------------

  /** Each group row sits under its own uuid and counts its member list. */
  predicate Consistent(st: State)
  {
    forall k :: k in st.groups ==> st.groups[k].uuid == k && st.groups[k].memberCnt == |st.groups[k].members|
  }

  lemma CreateKeepsConsistent(st: State, users: map<string, int>, briefsErr: bool, hasIngest: bool, req: CreateGroupRequest,
                              gid: string, writeErr: Option<Error>)
    requires Consistent(st)
    ensures Consistent(CreateSpec(st, users, briefsErr, hasIngest, req, gid, writeErr).0)
  {
    var (st', r) := CreateSpec(st, users, briefsErr, hasIngest, req, gid, writeErr);
    if r.Ok? {
      assert st' == CreateCommit(st, hasIngest, r.value);
      assert r.value.uuid == gid && r.value.memberCnt == |r.value.members|;
    }
  }

  lemma InviteKeepsConsistent(st: State, hasIngest: bool, memberIds: seq<string>, gid: string,
                              listed: Option<seq<string>>, writeErr: Option<Error>)
    requires Consistent(st)
    ensures Consistent(InviteSpec(st, hasIngest, memberIds, gid, listed, writeErr).0)
  {
  }

  lemma LeaveKeepsConsistent(st: State, hasIngest: bool, uid: string, gid: string, writeErr: Option<Error>)
    requires Consistent(st)
    ensures Consistent(LeaveSpec(st, hasIngest, uid, gid, writeErr).0)
  {
  }

  lemma DismissKeepsConsistent(st: State, hasIngest: bool, uid: string, gid: string, writeErr: Option<Error>,
                               statusErr: Option<Error>)
    requires Consistent(st)
    ensures Consistent(DismissSpec(st, hasIngest, uid, gid, writeErr, statusErr).0)
  {
  }

  // ---------------------------------------------------------------------
  // The loops of the service, as written
  // ---------------------------------------------------------------------

  /** The addMember loop over the owner and the requested ids. */
  method CollectMembers(ownerId: string, memberIds: seq<string>) returns (memberIDs: seq<string>)
    ensures memberIDs == MemberList(ownerId, memberIds)
  {
    var all := [ownerId] + memberIds;
    var memberSet: set<string> := {};
    memberIDs := [];
    for i := 0 to |all|
      invariant memberIDs == Collect([], all[..i])
      invariant forall x :: x in memberSet <==> x in memberIDs
    {
      assert all[..i + 1][..i] == all[..i];
      assert Collect([], all[..i + 1]) == AddMember(memberIDs, all[i]);
      var id := TrimSpace(all[i]);
      if id != [] && id !in memberSet {
        memberSet := memberSet + {id};
        memberIDs := memberIDs + [id];
      }
    }
    assert all[..|all|] == all;
  }

  /** The check of every collected id against the accounts found. */
  method CheckMembers(ids: seq<string>, users: map<string, int>) returns (e: Option<Error>)
    ensures e == FirstBadMember(ids, users)
  {
    for i := 0 to |ids|
      invariant FirstBadMember(ids[i..], users) == FirstBadMember(ids, users)
    {
      assert ids[i..][1..] == ids[i + 1..];
      var id := ids[i];
      if id !in users {
        return Some(Error(NotFound, "成员不存在"));
      }
      if users[id] != 0 {
        return Some(Error(Forbidden, "成员状态异常"));
      }
    }
    return None;
  }

  /** The loop of LeaveGroup that drops the leaver from the member list. */
  method RemoveMember(members: seq<string>, uid: string) returns (newMembers: seq<string>)
    ensures newMembers == Without(members, uid)
  {
    newMembers := [];
    for i := 0 to |members|
      invariant newMembers == Without(members[..i], uid)
    {
      assert members[..i + 1][..i] == members[..i];
      if members[i] != uid {
        newMembers := newMembers + [members[i]];
      }
    }
    assert members[..|members|] == members;
  }

  /**
   * The EnqueueGroupProfile loop of DismissGroup, which skips blank ids:
   * the refreshes it queues, in order.
   */
  method NonBlankRefreshes(members: seq<string>, gid: string) returns (queued: seq<(string, string)>)
    ensures queued == Pairs(NonBlank(members), gid)
  {
    queued := [];
    for i := 0 to |members|
      invariant queued == Pairs(NonBlank(members[..i]), gid)
    {
      assert members[..i + 1][..i] == members[..i];
      if !IsBlank(members[i]) {
        queued := queued + [(members[i], gid)];
      }
    }
    assert members[..|members|] == members;
  }

  class GroupServiceImpl {
    var groups: map<string, GroupInfo>
    var rels: map<(string, string), int>
    var enqueued: seq<(string, string)>
    /** Account status of every user the user repository knows. */
    const users: map<string, int>
    /** Whether an asynchronous ingest service is wired in. */
    const hasIngest: bool

    function Snapshot(): State
      reads this
    {
      State(groups, rels, enqueued)
    }

    constructor(users: map<string, int>, hasIngest: bool, st: State)
      ensures Snapshot() == st && this.users == users && this.hasIngest == hasIngest
    {
      this.users := users;
      this.hasIngest := hasIngest;
      groups := st.groups;
      rels := st.rels;
      enqueued := st.enqueued;
    }

    /** upsertMemberRel of CreateGroup for every member in turn. */
    method UpsertMembers(ids: seq<string>, gid: string)
      modifies this
      ensures rels == JoinAll(old(rels), ids, gid)
      ensures groups == old(groups) && enqueued == old(enqueued)
    {
      for i := 0 to |ids|
        invariant rels == JoinAll(old(rels), ids[..i], gid)
        invariant groups == old(groups) && enqueued == old(enqueued)
      {
        assert ids[..i + 1][..i] == ids[..i];
        var key := (ids[i], gid);
        if key in rels && rels[key] == RelNormal {
          assert rels[key := RelNormal] == rels;
        } else {
          rels := rels[key := RelNormal];
        }
      }
      assert ids[..|ids|] == ids;
    }

    /** EnqueueGroupProfile for every id in turn. */
    method EnqueueProfiles(ids: seq<string>, gid: string)
      modifies this
      ensures enqueued == old(enqueued) + Pairs(ids, gid)
      ensures groups == old(groups) && rels == old(rels)
    {
      for i := 0 to |ids|
        invariant enqueued == old(enqueued) + Pairs(ids[..i], gid)
        invariant groups == old(groups) && rels == old(rels)
      {
        assert ids[..i + 1][..i] == ids[..i];
        enqueued := enqueued + [(ids[i], gid)];
      }
      assert ids[..|ids|] == ids;
    }

    method CreateGroup(req: CreateGroupRequest, gid: string, briefsErr: bool, writeErr: Option<Error>)
      returns (r: Result<GroupInfo>)
      modifies this
      ensures (Snapshot(), r) == CreateSpec(old(Snapshot()), users, briefsErr, hasIngest, req, gid, writeErr)
    {
      var name := TrimSpace(req.name);
      var notice := TrimSpace(req.notice);
      if req.ownerId == [] || name == [] {
        return Err(ErrParam);
      }
      var memberIDs := CollectMembers(req.ownerId, req.memberIds);
      if briefsErr {
        return Err(ErrServerError);
      }
      var bad := CheckMembers(memberIDs, users);
      if bad.Some? {
        return Err(bad.value);
      }
      if writeErr.Some? || gid in groups {
        return Err(ErrServerError);
      }
      var g := GroupInfo(gid, name, notice, memberIDs, |memberIDs|, req.ownerId, 0, DefaultGroupAvatar, GroupNormal);
      CommitCreate(g);
      return Ok(g);
    }

    method CommitCreate(g: GroupInfo)
      modifies this
      ensures Snapshot() == CreateCommit(old(Snapshot()), hasIngest, g)
    {
      groups := groups[g.uuid := g];
      UpsertMembers(g.members, g.uuid);
      if hasIngest {
        EnqueueProfiles(g.members, g.uuid);
      }
    }

    method InviteGroupMembers(memberIds: seq<string>, gid: string, listed: Option<seq<string>>,
                              writeErr: Option<Error>) returns (r: Status)
      modifies this
      ensures (Snapshot(), r) == InviteSpec(old(Snapshot()), hasIngest, memberIds, gid, listed, writeErr)
    {
      if |memberIds| == 0 {
        return Success;
      }
      if gid !in groups {
        return Failure(Error(NotFound, "群组不存在"));
      }
      var g := groups[gid];
      if g.status != GroupNormal {
        return Failure(Error(Forbidden, "群组已解散或状态异常，无法邀请成员"));
      }
      var table := rels;
      var addedCount := 0;
      for i := 0 to |memberIds|
        invariant (table, addedCount) == InviteAll(rels, memberIds[..i], gid)
        invariant writeErr.Some? ==> addedCount == 0
      {
        assert memberIds[..i + 1][..i] == memberIds[..i];
        var uid := memberIds[i];
        if uid != [] && !IsMember(table, uid, gid) {
          if writeErr.Some? {
            InviteCountGrows(rels, memberIds, gid, i + 1);
            return Failure(ErrServerError);
          }
          table := table[(uid, gid) := RelNormal];
          addedCount := addedCount + 1;
        }
      }
      assert memberIds[..|memberIds|] == memberIds;
      if addedCount > 0 {
        var updatedMembers: seq<string> := [];
        if listed.Some? {
          updatedMembers := listed.value;
          g := g.(members := updatedMembers, memberCnt := |updatedMembers|);
        }
        groups := groups[gid := g];
        rels := table;
        if hasIngest {
          EnqueueProfiles(updatedMembers, gid);
        }
      }
      return Success;
    }

    method LeaveGroup(uid: string, gid: string, writeErr: Option<Error>) returns (r: Status)
      modifies this
      ensures (Snapshot(), r) == LeaveSpec(old(Snapshot()), hasIngest, uid, gid, writeErr)
    {
      if gid !in groups {
        return Failure(Error(NotFound, "群组不存在"));
      }
      var g := groups[gid];
      if g.status != GroupNormal {
        return Failure(Error(Forbidden, "群组已解散或状态异常，无法退群"));
      }
      if g.ownerId == uid {
        return Failure(Error(Forbidden, "群主不能退群，请先转让群主或解散群"));
      }
      if (uid, gid) !in rels {
        return Failure(Error(BadRequest, "非群成员"));
      }
      var status := rels[(uid, gid)];
      if status != 0 && status != 5 {
        return Failure(Error(BadRequest, "非群成员"));
      }
      if writeErr.Some? {
        return Failure(writeErr.value);
      }
      CommitLeave(g, uid, gid);
      return Success;
    }

    method CommitLeave(g: GroupInfo, uid: string, gid: string)
      modifies this
      ensures Snapshot() == LeaveCommit(old(Snapshot()), hasIngest, g, uid, gid)
    {
      rels := rels[(uid, gid) := RelQuit];
      var newMembers := RemoveMember(g.members, uid);
      groups := groups[gid := g.(members := newMembers, memberCnt := |newMembers|)];
      if hasIngest {
        enqueued := enqueued + [(uid, gid)];
        EnqueueProfiles(newMembers, gid);
        PairsAppend([uid], newMembers, gid);
        assert Pairs([uid], gid) == [(uid, gid)];
      }
    }

    method DismissGroup(uid: string, gid: string, writeErr: Option<Error>, statusErr: Option<Error>) returns (r: Status)
      modifies this
      ensures (Snapshot(), r) == DismissSpec(old(Snapshot()), hasIngest, uid, gid, writeErr, statusErr)
    {
      if gid !in groups {
        return Failure(Error(NotFound, "群组不存在"));
      }
      var g := groups[gid];
      if g.ownerId != uid {
        return Failure(Error(Forbidden, "非群主无法解散群聊"));
      }
      if g.status == GroupDismissed {
        return Failure(Error(Forbidden, "群组已解散，请勿重复操作"));
      }
      if g.status != GroupNormal {
        return Failure(Error(Forbidden, "群组状态异常，无法解散"));
      }
      if writeErr.Some? {
        return Failure(writeErr.value);
      }
      groups := groups[gid := g.(status := GroupDismissed)];
      if statusErr.None? && g.uuid != [] {
        rels := DismissRels(rels, g.uuid);
      }
      if hasIngest {
        var queued := NonBlankRefreshes(g.members, g.uuid);
        enqueued := enqueued + queued;
      }
      return Success;
    }
  }
}
