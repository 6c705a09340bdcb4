/** Project teams (Downloads/notes/backend/collaboration_routes.py): who may manage a project's
    members and invitations, at most one membership per project and user, and invitations that
    move once from pending to accepted. */
module Collaboration {
  import opened Common
  import opened Seqs
  import opened Store

  /** `timedelta(days=7)`, in the clock's seconds. */
  const INVITE_LIFETIME: int := 604800

  // ---------------------------------------------------------------- leader authority

  /** A membership naming this user a leader of this project. */
  function LeaderMembership(projectId: int, userId: int): Row<Member> -> bool {
    (m: Row<Member>) => m.val.projectId == projectId && m.val.userId == userId && m.val.role == LEADER
  }

  /** The project's owner, or one of its members with the leader role. */
  ghost predicate IsLeader(t: Tables, project: Project, projectId: int, userId: int) {
    project.ownerId == userId || exists i :: 0 <= i < |t.members| && t.members[i].val == Member(projectId, userId, LEADER)
  }

  /** The owner test, then the query for a leader membership. */
  function LeaderOf(t: Tables, project: Project, projectId: int, userId: int): (r: bool)
    ensures r <==> IsLeader(t, project, projectId, userId)
  {
    project.ownerId == userId || First(t.members, LeaderMembership(projectId, userId)).Some?
  }

  /** The check that opens every managing handler: 404 for a missing project, then 403 with
      `denied` for anyone but a leader. */
  function LeaderCheck(t: Tables, projectId: int, userId: int, denied: string): (r: Result<Project>)
    ensures Lookup(t.projects, projectId).None? ==> r == Error(NOT_FOUND, "Project not found")
    ensures Lookup(t.projects, projectId).Some? && !IsLeader(t, Lookup(t.projects, projectId).value, projectId, userId) ==>
      r == Error(FORBIDDEN, denied)
    ensures r.Ok? <==> Lookup(t.projects, projectId).Some? && IsLeader(t, Lookup(t.projects, projectId).value, projectId, userId)
    ensures r.Ok? ==> r.value == Lookup(t.projects, projectId).value
  {
    match Lookup(t.projects, projectId)
    case None => Error(NOT_FOUND, "Project not found")
    case Some(p) => if LeaderOf(t, p, projectId, userId) then Ok(p) else Error(FORBIDDEN, denied)
  }

  /** With one membership per project and user, a leader is the owner or the user whose
      membership has the leader role. */
  lemma LeaderByRole(t: Tables, project: Project, projectId: int, userId: int)
    requires OneMembershipEach(t.members)
    ensures IsLeader(t, project, projectId, userId) <==>
      project.ownerId == userId
      || (Membership(t.members, projectId, userId).Some? && Membership(t.members, projectId, userId).value.val.role == LEADER)
  {
    var m := Membership(t.members, projectId, userId);
    if project.ownerId != userId && IsLeader(t, project, projectId, userId) {
      var i :| 0 <= i < |t.members| && t.members[i].val == Member(projectId, userId, LEADER);
      var j :| 0 <= j < |t.members| && t.members[j] == m.value;
      assert !(i < j) && !(j < i);
    }
  }

  // ---------------------------------------------------------------- members

  /** A membership of this project. */
  function MemberOf(projectId: int): Row<Member> -> bool {
    (m: Row<Member>) => m.val.projectId == projectId
  }

  /** `get_project_members`: owners, members and anyone for a public project may list. */
  function GetMembers(t: Tables, userId: int, projectId: int): (r: Result<seq<Row<Member>>>)
    ensures Lookup(t.projects, projectId).None? ==> r == Error(NOT_FOUND, "Project not found")
    ensures r.Ok? <==>
      var p := Lookup(t.projects, projectId);
      p.Some? && (p.value.ownerId == userId || Membership(t.members, projectId, userId).Some? || p.value.isPublic)
    ensures Lookup(t.projects, projectId).Some? && r.Error? ==> r == Error(FORBIDDEN, "Access denied")
    ensures r.Ok? ==> forall x :: x in r.value <==> x in t.members && x.val.projectId == projectId
  {
    match Lookup(t.projects, projectId)
    case None => Error(NOT_FOUND, "Project not found")
    case Some(p) =>
      var isMember := p.ownerId == userId || Membership(t.members, projectId, userId).Some?;
      if !isMember && !p.isPublic then Error(FORBIDDEN, "Access denied")
      else Ok(Filter(t.members, MemberOf(projectId)))
  }

  /** The body of `add_project_member`; a missing role is "viewer". */
  datatype MemberRequest = MemberRequest(userId: int, role: Option<string>)

  /** The role a request asks for, with the schema's default. */
  function RequestedRole(role: Option<string>): (r: string)
    ensures role.Some? ==> r == role.value
    ensures role.None? ==> r == VIEWER
  {
    match role
    case None => VIEWER
    case Some(x) => x
  }

  /** Inserting a `ProjectMember` row. */
  function AddMember(t: Tables, m: Member): (r: Tables)
    ensures r == t.(members := r.members, nextId := t.nextId + 1)
    ensures r.members == t.members + [Row(t.nextId, m)]
  {
    t.(members := Add(t.members, t.nextId, m), nextId := t.nextId + 1)
  }

  /** A new membership is the one the lookup finds afterwards. */
  lemma AddedMemberFound(t: Tables, m: Member)
    requires Membership(t.members, m.projectId, m.userId).None?
    ensures Membership(AddMember(t, m).members, m.projectId, m.userId) == Some(Row(t.nextId, m))
  {
    assert AddMember(t, m).members[|t.members|] == Row(t.nextId, m);
  }

  /** A membership may be added for a project and user that have none. */
  lemma AddMemberConsistent(t: Tables, m: Member)
    requires Consistent(t) && Membership(t.members, m.projectId, m.userId).None?
    ensures Consistent(AddMember(t, m))
  {
    KeyedAdd(t.members, t.nextId, m);
    var ms := Add(t.members, t.nextId, m);
    forall i, j | 0 <= i < j < |ms|
      ensures !(ms[i].val.projectId == ms[j].val.projectId && ms[i].val.userId == ms[j].val.userId)
    {
      assert ms[i] == t.members[i];
      if j < |t.members| {
        assert ms[j] == t.members[j];
      }
    }
  }

  /** `add_project_member`. */
  function AddMemberSpec(t: Tables, userId: int, projectId: int, req: MemberRequest): (r: Step<Row<Member>>)
    ensures r.result.Ok? <==>
      LeaderCheck(t, projectId, userId, "Only leaders can add members").Ok? && Membership(t.members, projectId, req.userId).None?
    ensures r.result.Error? ==> r.db == t
    ensures LeaderCheck(t, projectId, userId, "Only leaders can add members").Error? ==>
      r.result == Error(LeaderCheck(t, projectId, userId, "Only leaders can add members").status,
                        LeaderCheck(t, projectId, userId, "Only leaders can add members").detail)
    ensures LeaderCheck(t, projectId, userId, "Only leaders can add members").Ok? && Membership(t.members, projectId, req.userId).Some? ==>
      r.result == Error(BAD_REQUEST, "Member already exists")
    ensures r.result.Ok? ==>
      && r.result.value == Row(t.nextId, Member(projectId, req.userId, RequestedRole(req.role)))
      && r.db == AddMember(t, r.result.value.val)
  {
    match LeaderCheck(t, projectId, userId, "Only leaders can add members")
    case Error(s, m) => Step(t, Error(s, m))
    case Ok(_) =>
      if Membership(t.members, projectId, req.userId).Some? then Step(t, Error(BAD_REQUEST, "Member already exists"))
      else
        var m := Member(projectId, req.userId, RequestedRole(req.role));
        Step(AddMember(t, m), Ok(Row(t.nextId, m)))
  }

  lemma AddMemberSpecConsistent(t: Tables, userId: int, projectId: int, req: MemberRequest)
    requires Consistent(t)
    ensures Consistent(AddMemberSpec(t, userId, projectId, req).db)
  {
    var r := AddMemberSpec(t, userId, projectId, req);
    if r.result.Ok? {
      AddMemberConsistent(t, r.result.value.val);
    }
  }

  /** The same request a second time is refused: the user now belongs to the project. */
  lemma {:induction false} AddMemberTwice(t: Tables, userId: int, projectId: int, req: MemberRequest)
    requires AddMemberSpec(t, userId, projectId, req).result.Ok?
    ensures var r := AddMemberSpec(t, userId, projectId, req);
      AddMemberSpec(r.db, userId, projectId, req).result == Error(BAD_REQUEST, "Member already exists")
  {
    var r := AddMemberSpec(t, userId, projectId, req);
    var row := r.result.value;
    assert r.db.members[|t.members|] == row;
    assert Membership(r.db.members, projectId, req.userId).Some?;
    var p := Lookup(t.projects, projectId).value;
    if p.ownerId != userId {
      var i :| 0 <= i < |t.members| && t.members[i].val == Member(projectId, userId, LEADER);
      assert r.db.members[i] == t.members[i];
    }
  }

  /** The `ProjectMember` with this key, when it belongs to the project. */
  function FindMember(t: Tables, projectId: int, memberId: int): (r: Option<Member>)
    ensures r.Some? ==> memberId >= 0 && Row(memberId, r.value) in t.members && r.value.projectId == projectId
    ensures r.Some? <==> HasId(t.members, memberId) && Lookup(t.members, memberId).value.projectId == projectId
  {
    match Lookup(t.members, memberId)
    case None => None
    case Some(m) => if m.projectId == projectId then Some(m) else None
  }

  /** `update_member_role`: the role changes only when the body has a "role" key. */
  function UpdateRoleSpec(t: Tables, userId: int, projectId: int, memberId: int, role: Option<string>): (r: Step<Row<Member>>)
    ensures r.result.Ok? <==>
      LeaderCheck(t, projectId, userId, "Only leaders can update roles").Ok? && FindMember(t, projectId, memberId).Some?
    ensures r.result.Error? ==> r.db == t
    ensures LeaderCheck(t, projectId, userId, "Only leaders can update roles").Ok? && FindMember(t, projectId, memberId).None? ==>
      r.result == Error(NOT_FOUND, "Member not found")
    ensures r.result.Ok? ==>
      var m := FindMember(t, projectId, memberId).value;
      var updated := if role.Some? then m.(role := role.value) else m;
      r.result.value == Row(memberId, updated) && r.db == t.(members := SetVal(t.members, memberId, updated))
  {
    match LeaderCheck(t, projectId, userId, "Only leaders can update roles")
    case Error(s, msg) => Step(t, Error(s, msg))
    case Ok(_) =>
      match FindMember(t, projectId, memberId)
      case None => Step(t, Error(NOT_FOUND, "Member not found"))
      case Some(m) =>
        var updated := if role.Some? then m.(role := role.value) else m;
        Step(t.(members := SetVal(t.members, memberId, updated)), Ok(Row(memberId, updated)))
  }

  /** A role change keeps the store consistent, reads back through the member's key, and leaves
      every other membership as it was. */
  lemma {:induction false} UpdateRoleEffect(t: Tables, userId: int, projectId: int, memberId: int, role: Option<string>)
    requires Consistent(t)
    ensures Consistent(UpdateRoleSpec(t, userId, projectId, memberId, role).db)
    ensures var r := UpdateRoleSpec(t, userId, projectId, memberId, role);
      r.result.Ok? ==>
        && Lookup(r.db.members, memberId) == Some(r.result.value.val)
        && (role.Some? ==> r.result.value.val.role == role.value)
        && forall k :: k != memberId ==> Lookup(r.db.members, k) == Lookup(t.members, k)
  {
    var r := UpdateRoleSpec(t, userId, projectId, memberId, role);
    if r.result.Ok? {
      var updated := r.result.value.val;
      RoleChangeConsistent(t, memberId, updated);
      LookupSetVal(t.members, memberId, updated, memberId);
      forall k | k != memberId ensures Lookup(r.db.members, k) == Lookup(t.members, k) {
        LookupSetVal(t.members, memberId, updated, k);
      }
    }
  }

  /** Rewriting a membership's columns, but not its project or user, keeps the store consistent. */
  lemma RoleChangeConsistent(t: Tables, memberId: int, updated: Member)
    requires Consistent(t) && Lookup(t.members, memberId).Some?
    requires updated.projectId == Lookup(t.members, memberId).value.projectId
    requires updated.userId == Lookup(t.members, memberId).value.userId
    ensures Consistent(t.(members := SetVal(t.members, memberId, updated)))
  {
    KeyedSetVal(t.members, t.nextId, memberId, updated);
    var ms := SetVal(t.members, memberId, updated);
    forall i | 0 <= i < |ms|
      ensures ms[i].val.projectId == t.members[i].val.projectId && ms[i].val.userId == t.members[i].val.userId
    {
      if t.members[i].id == memberId {
        LookupUnique(t.members, i);
      }
    }
  }

  /** `remove_project_member`. */
  function RemoveMemberSpec(t: Tables, userId: int, projectId: int, memberId: int): (r: Step<string>)
    ensures r.result.Ok? <==>
      LeaderCheck(t, projectId, userId, "Only leaders can remove members").Ok? && FindMember(t, projectId, memberId).Some?
    ensures r.result.Error? ==> r.db == t
    ensures LeaderCheck(t, projectId, userId, "Only leaders can remove members").Ok? && FindMember(t, projectId, memberId).None? ==>
      r.result == Error(NOT_FOUND, "Member not found")
    ensures r.result.Ok? ==>
      && r.result.value == "Member removed successfully"
      && r.db == t.(members := r.db.members)
      && forall x :: x in r.db.members <==> x in t.members && x.id != memberId
  {
    match LeaderCheck(t, projectId, userId, "Only leaders can remove members")
    case Error(s, msg) => Step(t, Error(s, msg))
    case Ok(_) =>
      match FindMember(t, projectId, memberId)
      case None => Step(t, Error(NOT_FOUND, "Member not found"))
      case Some(_) => Step(t.(members := RemoveId(t.members, memberId)), Ok("Member removed successfully"))
  }

  /** After a removal the user no longer belongs to the project, and the store stays consistent. */
  lemma {:induction false} RemoveMemberRevokes(t: Tables, userId: int, projectId: int, memberId: int)
    requires Consistent(t)
    ensures Consistent(RemoveMemberSpec(t, userId, projectId, memberId).db)
    ensures var r := RemoveMemberSpec(t, userId, projectId, memberId);
      r.result.Ok? ==> Membership(r.db.members, projectId, FindMember(t, projectId, memberId).value.userId).None?
  {
    var r := RemoveMemberSpec(t, userId, projectId, memberId);
    if r.result.Ok? {
      DropMemberConsistent(t, memberId);
      DropMemberRevokes(t.members, memberId, FindMember(t, projectId, memberId).value);
    }
  }

  /** Deleting a membership row keeps the store consistent. */
  lemma DropMemberConsistent(t: Tables, memberId: int)
    requires Consistent(t)
    ensures Consistent(t.(members := RemoveId(t.members, memberId)))
  {
    var p := (x: Row<Member>) => x.id != memberId;
    var ms := RemoveId(t.members, memberId);
    assert ms == Filter(t.members, p);
    IdsIncreasingFilter(t.members, p);
    forall i, j | 0 <= i < j < |ms|
      ensures !(ms[i].val.projectId == ms[j].val.projectId && ms[i].val.userId == ms[j].val.userId)
    {
      FilterOrder(t.members, p, i, j);
    }
  }

  /** With one membership per user and project, deleting a user's row revokes their membership. */
  lemma DropMemberRevokes(members: seq<Row<Member>>, memberId: nat, gone: Member)
    requires OneMembershipEach(members) && Row(memberId, gone) in members
    ensures Membership(RemoveId(members, memberId), gone.projectId, gone.userId).None?
  {
    var ms := RemoveId(members, memberId);
    var k :| 0 <= k < |members| && members[k] == Row(memberId, gone);
    forall i | 0 <= i < |ms| ensures !(ms[i].val.projectId == gone.projectId && ms[i].val.userId == gone.userId) {
      var j :| 0 <= j < |members| && members[j] == ms[i];
      assert j != k;
    }
  }

  // ---------------------------------------------------------------- invites

  /** The body of `create_project_invite`; a missing role is "viewer". */
  datatype InviteRequest = InviteRequest(inviteeEmail: Option<string>, inviteeId: Option<int>, role: Option<string>)

  function WithEmail(email: string): Row<User> -> bool {
    (u: Row<User>) => u.val.email == email
  }

  /** The invitee key an invite records: the one given, else (when an email is given) the key
      of the first user with that email, if there is one. */
  function ResolveInvitee(users: seq<Row<User>>, req: InviteRequest): (r: Option<int>)
    ensures GivenId(req.inviteeId) || !Given(req.inviteeEmail) ==> r == req.inviteeId
    ensures r != req.inviteeId ==> exists u :: u in users && u.val.email == req.inviteeEmail.value && r == Some(u.id)
    ensures !GivenId(req.inviteeId) && Given(req.inviteeEmail) && (exists u :: u in users && u.val.email == req.inviteeEmail.value) ==>
      r.Some? && exists u :: u in users && u.val.email == req.inviteeEmail.value && r.value == u.id
  {
    if Given(req.inviteeEmail) && !GivenId(req.inviteeId) then
      match First(users, WithEmail(req.inviteeEmail.value))
      case None => req.inviteeId
      case Some(u) => Some(u.id)
    else req.inviteeId
  }

  /** Whether an invite already holds this token (the column is unique). */
  predicate TokenTaken(invites: seq<Row<Invite>>, token: string) {
    exists i :: 0 <= i < |invites| && invites[i].val.token == token
  }

  /** The invite row `create_project_invite` builds. */
  function NewInvite(t: Tables, userId: int, projectId: int, req: InviteRequest, token: string): (r: Invite)
    ensures r.projectId == projectId && r.inviterId == userId && r.token == token
    ensures r.status == PENDING && r.expiresAt == Some(t.clock + INVITE_LIFETIME)
    ensures r.role == RequestedRole(req.role) && r.inviteeId == ResolveInvitee(t.users, req)
    ensures r.inviteeEmail == if GivenId(r.inviteeId) then None else req.inviteeEmail
  {
    var invitee := ResolveInvitee(t.users, req);
    Invite(projectId, userId, invitee, if GivenId(invitee) then None else req.inviteeEmail, token,
           RequestedRole(req.role), PENDING, Some(t.clock + INVITE_LIFETIME))
  }

  /** `create_project_invite`; `token` stands for `secrets.token_urlsafe(32)`. A token already in
      the table makes the commit fail on the unique constraint. */
  function CreateInviteSpec(t: Tables, userId: int, projectId: int, req: InviteRequest, token: string): (r: Step<Row<Invite>>)
    ensures r.result.Ok? <==>
      LeaderCheck(t, projectId, userId, "Only leaders can invite members").Ok? && !TokenTaken(t.invites, token)
    ensures r.result.Error? ==> r.db == t
    ensures LeaderCheck(t, projectId, userId, "Only leaders can invite members").Ok? && TokenTaken(t.invites, token) ==>
      r.result == Error(INTERNAL_SERVER_ERROR, "Internal Server Error")
    ensures r.result.Ok? ==>
      && r.result.value == Row(t.nextId, NewInvite(t, userId, projectId, req, token))
      && r.db == t.(invites := t.invites + [r.result.value], nextId := t.nextId + 1)
  {
    match LeaderCheck(t, projectId, userId, "Only leaders can invite members")
    case Error(s, m) => Step(t, Error(s, m))
    case Ok(_) =>
      if TokenTaken(t.invites, token) then Step(t, Error(INTERNAL_SERVER_ERROR, "Internal Server Error"))
      else
        var inv := NewInvite(t, userId, projectId, req, token);
        Step(t.(invites := Add(t.invites, t.nextId, inv), nextId := t.nextId + 1), Ok(Row(t.nextId, inv)))
  }

  lemma CreateInviteConsistent(t: Tables, userId: int, projectId: int, req: InviteRequest, token: string)
    requires Consistent(t)
    ensures Consistent(CreateInviteSpec(t, userId, projectId, req, token).db)
  {
    var r := CreateInviteSpec(t, userId, projectId, req, token);
    if r.result.Ok? {
      KeyedAdd(t.invites, t.nextId, r.result.value.val);
      var invs := r.db.invites;
      forall i, j | 0 <= i < j < |invs| ensures invs[i].val.token != invs[j].val.token {
        assert invs[i] == t.invites[i];
        if j < |t.invites| {
          assert invs[j] == t.invites[j];
        }
      }
    }
  }

  /** An invite of this project. */
  function InviteOf(projectId: int): Row<Invite> -> bool {
    (i: Row<Invite>) => i.val.projectId == projectId
  }

  /** `get_project_invites`: leaders only. */
  function ListInvites(t: Tables, userId: int, projectId: int): (r: Result<seq<Row<Invite>>>)
    ensures r.Ok? <==> LeaderCheck(t, projectId, userId, "Only leaders can view invites").Ok?
    ensures r.Error? ==> r == Error(LeaderCheck(t, projectId, userId, "Only leaders can view invites").status,
                                    LeaderCheck(t, projectId, userId, "Only leaders can view invites").detail)
    ensures r.Ok? ==> forall x :: x in r.value <==> x in t.invites && x.val.projectId == projectId
  {
    match LeaderCheck(t, projectId, userId, "Only leaders can view invites")
    case Error(s, m) => Error(s, m)
    case Ok(_) => Ok(Filter(t.invites, InviteOf(projectId)))
  }

  /** A pending invite with this token. */
  function PendingWith(token: string): Row<Invite> -> bool {
    (i: Row<Invite>) => i.val.token == token && i.val.status == PENDING
  }

  predicate Expired(inv: Invite, now: int) {
    inv.expiresAt.Some? && inv.expiresAt.value < now
  }

  /** The invite is live and names the caller wherever it names anyone. */
  predicate Admits(inv: Invite, user: Row<User>, now: int) {
    && !Expired(inv, now)
    && (GivenId(inv.inviteeId) ==> inv.inviteeId.value == user.id)
    && (Given(inv.inviteeEmail) ==> user.val.email == inv.inviteeEmail.value)
  }

  /** Marking the invite with this key accepted. */
  function MarkAccepted(t: Tables, row: Row<Invite>): (r: Tables)
    ensures r == t.(invites := r.invites) && |r.invites| == |t.invites|
    ensures forall k :: (Lookup(r.invites, k) ==
      if k == row.id && HasId(t.invites, row.id) then Some(row.val.(status := ACCEPTED)) else Lookup(t.invites, k))
  {
    LookupSetValAll(t.invites, row.id, row.val.(status := ACCEPTED));
    t.(invites := SetVal(t.invites, row.id, row.val.(status := ACCEPTED)))
  }

  /** The checks `accept_invite` makes before changing anything: a pending invite with the
      token (404), not expired (400), naming the caller by key and by email (403). */
  function AcceptCheck(t: Tables, user: Row<User>, token: string): (r: Result<Row<Invite>>)
    ensures r == Error(NOT_FOUND, "Invite not found or already used") <==>
      forall i :: 0 <= i < |t.invites| ==> !PendingWith(token)(t.invites[i])
    ensures r.Ok? ==>
      && r.value in t.invites && r.value.val.token == token && r.value.val.status == PENDING
      && r.value == First(t.invites, PendingWith(token)).value
      && !Expired(r.value.val, t.clock)
      && (GivenId(r.value.val.inviteeId) ==> r.value.val.inviteeId.value == user.id)
      && (Given(r.value.val.inviteeEmail) ==> user.val.email == r.value.val.inviteeEmail.value)
    ensures r.Ok? <==> First(t.invites, PendingWith(token)).Some? && Admits(First(t.invites, PendingWith(token)).value.val, user, t.clock)
    ensures First(t.invites, PendingWith(token)).Some? && Expired(First(t.invites, PendingWith(token)).value.val, t.clock) ==>
      r == Error(BAD_REQUEST, "Invite has expired")
    ensures var f := First(t.invites, PendingWith(token));
      f.Some? && !Expired(f.value.val, t.clock) && GivenId(f.value.val.inviteeId) && f.value.val.inviteeId.value != user.id ==>
      r == Error(FORBIDDEN, "This invite is for a different user")
    ensures var f := First(t.invites, PendingWith(token));
      && f.Some? && !Expired(f.value.val, t.clock) && !(GivenId(f.value.val.inviteeId) && f.value.val.inviteeId.value != user.id)
      && Given(f.value.val.inviteeEmail) && user.val.email != f.value.val.inviteeEmail.value ==>
      r == Error(FORBIDDEN, "This invite is for a different email")
  {
    match First(t.invites, PendingWith(token))
    case None => Error(NOT_FOUND, "Invite not found or already used")
    case Some(row) =>
      var inv := row.val;
      if Expired(inv, t.clock) then Error(BAD_REQUEST, "Invite has expired")
      else if GivenId(inv.inviteeId) && inv.inviteeId.value != user.id then Error(FORBIDDEN, "This invite is for a different user")
      else if Given(inv.inviteeEmail) && user.val.email != inv.inviteeEmail.value then Error(FORBIDDEN, "This invite is for a different email")
      else Ok(row)
  }

  /** What an accepted invite does: the caller's existing membership is returned, or a new one
      with the invite's role is added; either way the invite is marked accepted. */
  function Join(t: Tables, user: Row<User>, row: Row<Invite>): (r: Step<Row<Member>>)
    ensures r.result.Ok?
    ensures r.result.value.val.projectId == row.val.projectId && r.result.value.val.userId == user.id
    ensures r.result.value in r.db.members
    ensures Membership(t.members, row.val.projectId, user.id).Some? ==>
      r.db == MarkAccepted(t, row) && r.result.value == Membership(t.members, row.val.projectId, user.id).value
    ensures Membership(t.members, row.val.projectId, user.id).None? ==>
      r.db == AddMember(MarkAccepted(t, row), r.result.value.val) && r.result.value.val.role == row.val.role
  {
    match Membership(t.members, row.val.projectId, user.id)
    case Some(m) => Step(MarkAccepted(t, row), Ok(m))
    case None =>
      var m := Member(row.val.projectId, user.id, row.val.role);
      var t1 := MarkAccepted(t, row);
      assert Add(t1.members, t1.nextId, m)[|t1.members|] == Row(t1.nextId, m);
      Step(AddMember(t1, m), Ok(Row(t1.nextId, m)))
  }

  /** `accept_invite`: the checks, then `Join`. */
  function AcceptSpec(t: Tables, user: Row<User>, token: string): (r: Step<Row<Member>>)
    ensures r.result.Error? ==> r.db == t
    ensures r.result.Ok? <==> AcceptCheck(t, user, token).Ok?
    ensures r.result.Ok? <==>
      First(t.invites, PendingWith(token)).Some? && Admits(First(t.invites, PendingWith(token)).value.val, user, t.clock)
    ensures r.result.Error? ==> r.result == Error(AcceptCheck(t, user, token).status, AcceptCheck(t, user, token).detail)
    ensures r.result == Error(NOT_FOUND, "Invite not found or already used") <==>
      forall i :: 0 <= i < |t.invites| ==> !PendingWith(token)(t.invites[i])
    ensures r.result.Ok? ==> r == Join(t, user, AcceptCheck(t, user, token).value)
  {
    match AcceptCheck(t, user, token)
    case Error(s, m) => Step(t, Error(s, m))
    case Ok(row) => Join(t, user, row)
  }

  /** Marking an invite accepted keeps every key and every token where it was. */
  lemma {:induction false} MarkAcceptedConsistent(t: Tables, row: Row<Invite>)
    requires Consistent(t) && row in t.invites
    ensures Consistent(MarkAccepted(t, row))
  {
    KeyedSetVal(t.invites, t.nextId, row.id, row.val.(status := ACCEPTED));
    var invs := MarkAccepted(t, row).invites;
    var k :| 0 <= k < |t.invites| && t.invites[k] == row;
    forall i | 0 <= i < |invs| ensures invs[i].val.token == t.invites[i].val.token {
      if t.invites[i].id == row.id {
        assert !(i < k) && !(k < i);
      }
    }
  }

  lemma AcceptConsistent(t: Tables, user: Row<User>, token: string)
    requires Consistent(t)
    ensures Consistent(AcceptSpec(t, user, token).db)
  {
    var r := AcceptSpec(t, user, token);
    if r.result.Ok? {
      var row := AcceptCheck(t, user, token).value;
      MarkAcceptedConsistent(t, row);
      if Membership(t.members, row.val.projectId, user.id).None? {
        AddMemberConsistent(MarkAccepted(t, row), r.result.value.val);
      }
    }
  }

  /** An invite is used once: after an acceptance, the same token finds no pending invite,
      whoever presents it. */
  lemma {:induction false} AcceptOnce(t: Tables, user: Row<User>, other: Row<User>, token: string)
    requires TokensDistinct(t.invites)
    requires AcceptSpec(t, user, token).result.Ok?
    ensures AcceptSpec(AcceptSpec(t, user, token).db, other, token).result == Error(NOT_FOUND, "Invite not found or already used")
  {
    var r := AcceptSpec(t, user, token);
    var row := AcceptCheck(t, user, token).value;
    var k :| 0 <= k < |t.invites| && t.invites[k] == row;
    var invs := r.db.invites;
    assert invs == SetVal(t.invites, row.id, row.val.(status := ACCEPTED));
    forall i | 0 <= i < |invs| ensures !PendingWith(token)(invs[i]) {
      if t.invites[i].id != row.id {
        assert i != k;
      }
    }
  }

  /** `delete_invite`: a missing invite gives 404; an invite whose project is gone makes the
      owner test read `owner_id` off `None`. */
  function DeleteInviteSpec(t: Tables, userId: int, inviteId: int): (r: Step<string>)
    ensures r.result.Error? ==> r.db == t
    ensures Lookup(t.invites, inviteId).None? <==> r.result == Error(NOT_FOUND, "Invite not found")
    ensures r.result.Ok? <==>
      var inv := Lookup(t.invites, inviteId);
      inv.Some? && Lookup(t.projects, inv.value.projectId).Some?
      && IsLeader(t, Lookup(t.projects, inv.value.projectId).value, inv.value.projectId, userId)
    ensures r.result.Ok? ==>
      && r.result.value == "Invite deleted successfully"
      && r.db == t.(invites := RemoveId(t.invites, inviteId))
  {
    match Lookup(t.invites, inviteId)
    case None => Step(t, Error(NOT_FOUND, "Invite not found"))
    case Some(inv) =>
      match Lookup(t.projects, inv.projectId)
      case None => Step(t, Error(INTERNAL_SERVER_ERROR, "'NoneType' object has no attribute 'owner_id'"))
      case Some(p) =>
        if LeaderOf(t, p, inv.projectId, userId) then Step(t.(invites := RemoveId(t.invites, inviteId)), Ok("Invite deleted successfully"))
        else Step(t, Error(FORBIDDEN, "Only leaders can delete invites"))
  }

  lemma DeleteInviteConsistent(t: Tables, userId: int, inviteId: int)
    requires Consistent(t)
    ensures Consistent(DeleteInviteSpec(t, userId, inviteId).db)
  {
    var r := DeleteInviteSpec(t, userId, inviteId);
    if r.result.Ok? {
      var p := (x: Row<Invite>) => x.id != inviteId;
      var invs := r.db.invites;
      assert invs == Filter(t.invites, p);
      IdsIncreasingFilter(t.invites, p);
      forall i, j | 0 <= i < j < |invs| ensures invs[i].val.token != invs[j].val.token {
        FilterOrder(t.invites, p, i, j);
      }
    }
  }

  // ---------------------------------------------------------------- the handlers

  method AddProjectMember(db: Db, user: Row<User>, projectId: int, req: MemberRequest) returns (r: Result<Row<Member>>)
    modifies db
    ensures db.State() == AddMemberSpec(old(db.State()), user.id, projectId, req).db
    ensures r == AddMemberSpec(old(db.State()), user.id, projectId, req).result
  {
    var check := LeaderCheck(db.State(), projectId, user.id, "Only leaders can add members");
    if check.Error? {
      return Error(check.status, check.detail);
    }
    if Membership(db.members, projectId, req.userId).Some? {
      return Error(BAD_REQUEST, "Member already exists");
    }
    var row := Row(db.nextId, Member(projectId, req.userId, RequestedRole(req.role)));
    db.members := db.members + [row];
    db.nextId := db.nextId + 1;
    r := Ok(row);
  }

  method UpdateMemberRole(db: Db, user: Row<User>, projectId: int, memberId: int, role: Option<string>) returns (r: Result<Row<Member>>)
    modifies db
    ensures db.State() == UpdateRoleSpec(old(db.State()), user.id, projectId, memberId, role).db
    ensures r == UpdateRoleSpec(old(db.State()), user.id, projectId, memberId, role).result
  {
    var check := LeaderCheck(db.State(), projectId, user.id, "Only leaders can update roles");
    if check.Error? {
      return Error(check.status, check.detail);
    }
    var found := FindMember(db.State(), projectId, memberId);
    if found.None? {
      return Error(NOT_FOUND, "Member not found");
    }
    var m := found.value;
    if role.Some? {
      m := m.(role := role.value);
    }
    db.members := SetVal(db.members, memberId, m);
    r := Ok(Row(memberId, m));
  }

  method RemoveProjectMember(db: Db, user: Row<User>, projectId: int, memberId: int) returns (r: Result<string>)
    modifies db
    ensures db.State() == RemoveMemberSpec(old(db.State()), user.id, projectId, memberId).db
    ensures r == RemoveMemberSpec(old(db.State()), user.id, projectId, memberId).result
  {
    var check := LeaderCheck(db.State(), projectId, user.id, "Only leaders can remove members");
    if check.Error? {
      return Error(check.status, check.detail);
    }
    if FindMember(db.State(), projectId, memberId).None? {
      return Error(NOT_FOUND, "Member not found");
    }
    db.members := RemoveId(db.members, memberId);
    r := Ok("Member removed successfully");
  }

  method CreateProjectInvite(db: Db, user: Row<User>, projectId: int, req: InviteRequest, token: string) returns (r: Result<Row<Invite>>)
    modifies db
    ensures db.State() == CreateInviteSpec(old(db.State()), user.id, projectId, req, token).db
    ensures r == CreateInviteSpec(old(db.State()), user.id, projectId, req, token).result
  {
    var check := LeaderCheck(db.State(), projectId, user.id, "Only leaders can invite members");
    if check.Error? {
      return Error(check.status, check.detail);
    }
    if TokenTaken(db.invites, token) {
      return Error(INTERNAL_SERVER_ERROR, "Internal Server Error");
    }
    var row := Row(db.nextId, NewInvite(db.State(), user.id, projectId, req, token));
    db.invites := db.invites + [row];
    db.nextId := db.nextId + 1;
    r := Ok(row);
  }

  method AcceptInvite(db: Db, user: Row<User>, token: string) returns (r: Result<Row<Member>>)
    modifies db
    ensures db.State() == AcceptSpec(old(db.State()), user, token).db
    ensures r == AcceptSpec(old(db.State()), user, token).result
  {
    var check := AcceptCheck(db.State(), user, token);
    if check.Error? {
      return Error(check.status, check.detail);
    }
    var step := JoinInto(db, user, check.value);
    r := Ok(step);
  }

  /** The membership part of `accept_invite`. */
  method JoinInto(db: Db, user: Row<User>, row: Row<Invite>) returns (m: Row<Member>)
    modifies db
    ensures db.State() == Join(old(db.State()), user, row).db
    ensures Ok(m) == Join(old(db.State()), user, row).result
  {
    var existing := Membership(db.members, row.val.projectId, user.id);
    db.invites := SetVal(db.invites, row.id, row.val.(status := ACCEPTED));
    if existing.Some? {
      return existing.value;
    }
    ghost var accepted := db.State();
    m := Row(db.nextId, Member(row.val.projectId, user.id, row.val.role));
    db.members := db.members + [m];
    db.nextId := db.nextId + 1;
    assert db.State() == AddMember(accepted, m.val);
  }

  method DeleteInvite(db: Db, user: Row<User>, inviteId: int) returns (r: Result<string>)
    modifies db
    ensures db.State() == DeleteInviteSpec(old(db.State()), user.id, inviteId).db
    ensures r == DeleteInviteSpec(old(db.State()), user.id, inviteId).result
  {
    var inv := Lookup(db.invites, inviteId);
    if inv.None? {
      return Error(NOT_FOUND, "Invite not found");
    }
    var project := Lookup(db.projects, inv.value.projectId);
    if project.None? {
      return Error(INTERNAL_SERVER_ERROR, "'NoneType' object has no attribute 'owner_id'");
    }
    if !LeaderOf(db.State(), project.value, inv.value.projectId, user.id) {
      return Error(FORBIDDEN, "Only leaders can delete invites");
    }
    db.invites := RemoveId(db.invites, inviteId);
    r := Ok("Invite deleted successfully");
  }
}
