/** What every run of governed calls keeps: an owner per tenant, owners out of admins' reach, intact references. */
module Ownership {
  import opened Base
  import opened Namespace
  import opened Governance

  datatype Op =
    | Seed(tenant: Id, identity: Id, principal: Id, role: Role)
    | Update(tenant: Id, actor: Id, acting: Role, target: Id, newRole: Option<Role>, newStatus: Option<MemberStatus>)
    | Remove(tenant: Id, actor: Id, acting: Role, target: Id)
    | Invite(id: Id, tenant: Id, actor: Id, acting: Role, identity: Id, role: Role, token: Id, expiresAt: Time,
        now: Time)
    | Accept(token: Id, candidate: Id, identity: Id, now: Time)
    | Revoke(tenant: Id, actor: Id, acting: Role, id: Id)
    | AddGroup(id: Id, tenant: Id, actor: Id, acting: Role, name: Name)
    | RenameGroup(tenant: Id, actor: Id, acting: Role, id: Id, name: Name)
    | DropGroup(tenant: Id, actor: Id, acting: Role, id: Id)
    | ListInvited(tenant: Id, now: Time)
    | Join(tenant: Id, actor: Id, acting: Role, group: Id, principal: Id, add: bool)
    | SetEntry(d: Drive, allowed: bool, id: Id, tenant: Id, node: Id, subject: Subject, grant: AclRole)
    | DropEntry(allowed: bool, tenant: Id, node: Id, id: Id)

  function Apply(s: State, op: Op): State {
    match op
    case Seed(tenant, identity, principal, role) => EnsureMember(s, tenant, identity, principal, role).0
    case Update(tenant, actor, acting, target, role, status) => UpdateMember(s, tenant, actor, acting, target, role,
        status).0
    case Remove(tenant, actor, acting, target) => DeleteMember(s, tenant, actor, acting, target).0
    case Invite(id, tenant, actor, acting, identity, role, token, expiresAt, now) => CreateInvitation(s, id, tenant,
        actor, acting, identity, role, token, expiresAt, now).0
    case Accept(token, candidate, identity, now) => AcceptInvitation(s, token, candidate, identity, now).0
    case Revoke(tenant, actor, acting, id) => RevokeInvitation(s, tenant, actor, acting, id).0
    case AddGroup(id, tenant, actor, acting, name) => CreateGroup(s, id, tenant, actor, acting, name).0
    case RenameGroup(tenant, actor, acting, id, name) => UpdateGroup(s, tenant, actor, acting, id, name).0
    case DropGroup(tenant, actor, acting, id) => DeleteGroup(s, tenant, actor, acting, id).0
    case ListInvited(tenant, now) => LapseInvitations(s, tenant, now)
    case Join(tenant, actor, acting, group, principal, add) => ChangeMembership(s, tenant, actor, acting, group,
        principal, add).0
    case SetEntry(d, allowed, id, tenant, node, subject, grant) => SetNodeACL(s, d, allowed, id, tenant, node, subject,
        grant).0
    case DropEntry(allowed, tenant, node, id) => DeleteNodeACL(s, allowed, tenant, node, id).0
  }

  /** Generated ids are new. */
  predicate Admissible(s: State, op: Op) {
    match op
    case Invite(id, _, _, _, _, _, token, _, _) => id !in s.invitations && token !in s.tokens
    case AddGroup(id, _, _, _, _) => id !in s.groups
    case SetEntry(_, _, id, _, _, _, _) => id !in s.acls
    case _ => true
  }

  function Run(s: State, ops: seq<Op>): State
    decreases |ops|
  {
    if ops == [] then s else Run(Apply(s, ops[0]), ops[1..])
  }

  predicate AdmissibleRun(s: State, ops: seq<Op>)
    decreases |ops|
  {
    ops == [] || (Admissible(s, ops[0]) && AdmissibleRun(Apply(s, ops[0]), ops[1..]))
  }

  // --------------------------------------------------------------------------- owners

  ghost predicate HasOwner(s: State, tenant: Id) {
    exists p: Id :: ActiveOwner(s, tenant, p)
  }

  /** Only these calls change who is a member, or as what. */
  predicate ChangesMembers(op: Op) {
    op.Seed? || op.Update? || op.Remove? || op.Accept?
  }

  lemma OthersKeepMembers(s: State, op: Op)
    requires !ChangesMembers(op)
    ensures Apply(s, op).members == s.members
  {
  }

  /** Members are added, or one record that is not the last active owner's changes. */
  ghost predicate SafeChange(s: State, t: State) {
    forall k :: k in s.members && s.members[k] == Member(Owner, Working)
        && !(k in t.members && t.members[k] == s.members[k])
      ==> OtherActiveOwner(s, k.0, k.1)
          && (forall j :: j in s.members && j != k ==> j in t.members && t.members[j] == s.members[j])
  }

  /** All records but possibly that of `k` stay, and `k` is not the last active owner's. */
  lemma OneRecordIsSafe(s: State, t: State, k: (Id, Id))
    requires forall j :: j in s.members && j != k ==> j in t.members && t.members[j] == s.members[j]
    requires ActiveOwner(s, k.0, k.1) && !(k in t.members && t.members[k] == s.members[k]) ==>
               OtherActiveOwner(s, k.0, k.1)
    ensures SafeChange(s, t)
  {
  }

  lemma UpdateIsSafe(
    s: State, tenant: Id, actor: Id, acting: Role, target: Id, role: Option<Role>, status: Option<MemberStatus>)
    ensures SafeChange(s, UpdateMember(s, tenant, actor, acting, target, role, status).0)
  {
    OneRecordIsSafe(s, UpdateMember(s, tenant, actor, acting, target, role, status).0, (tenant, target));
  }

  lemma RemoveIsSafe(s: State, tenant: Id, actor: Id, acting: Role, target: Id)
    ensures SafeChange(s, DeleteMember(s, tenant, actor, acting, target).0)
  {
    OneRecordIsSafe(s, DeleteMember(s, tenant, actor, acting, target).0, (tenant, target));
  }

  lemma AcceptIsSafe(s: State, token: Id, candidate: Id, identity: Id, now: Time)
    ensures SafeChange(s, AcceptInvitation(s, token, candidate, identity, now).0)
  {
  }

  lemma SeedIsSafe(s: State, tenant: Id, identity: Id, principal: Id, role: Role)
    ensures SafeChange(s, EnsureMember(s, tenant, identity, principal, role).0)
  {
  }

  lemma SafeChangeKeepsOwner(s: State, t: State, tenant: Id)
    requires SafeChange(s, t) && HasOwner(s, tenant)
    ensures HasOwner(t, tenant)
  {
    var p: Id :| ActiveOwner(s, tenant, p);
    if !ActiveOwner(t, tenant, p) {
      assert OtherActiveOwner(s, (tenant, p).0, (tenant, p).1);
      var k :| k in s.members && k.0 == tenant && k.1 != p && s.members[k] == Member(Owner, Working);
      assert k == (tenant, k.1);
      assert ActiveOwner(t, tenant, k.1);
    }
  }

  lemma StepKeepsOwner(s: State, op: Op, tenant: Id)
    requires HasOwner(s, tenant)
    ensures HasOwner(Apply(s, op), tenant)
  {
    match op {
      case Update(t, actor, acting, target, role, status) => UpdateIsSafe(s, t, actor, acting, target, role, status);
      case Remove(t, actor, acting, target) => RemoveIsSafe(s, t, actor, acting, target);
      case Accept(token, candidate, identity, now) => AcceptIsSafe(s, token, candidate, identity, now);
      case Seed(t, identity, principal, role) => SeedIsSafe(s, t, identity, principal, role);
      case _ => OthersKeepMembers(s, op);
    }
    SafeChangeKeepsOwner(s, Apply(s, op), tenant);
  }

  /** A tenant that has an active owner has one after every run of governed calls. */
  lemma {:induction false} OwnerIsNeverLost(s: State, ops: seq<Op>, tenant: Id)
    requires HasOwner(s, tenant)
    ensures HasOwner(Run(s, ops), tenant)
    decreases |ops|
  {
    if ops == [] {
    } else {
      StepKeepsOwner(s, ops[0], tenant);
      OwnerIsNeverLost(Apply(s, ops[0]), ops[1..], tenant);
    }
  }

  /** No one acts as an owner, and nothing is seeded. */
  predicate WithoutOwners(op: Op) {
    match op
    case Seed(_, _, _, _) => false
    case Update(_, _, acting, _, _, _) => acting != Owner
    case Remove(_, _, acting, _) => acting != Owner
    case Invite(_, _, _, acting, _, _, _, _, _) => acting != Owner
    case _ => true
  }

  ghost predicate NoOwnerInvited(s: State) {
    forall i :: i in s.invitations && s.invitations[i].role == Owner ==> s.invitations[i].status != Pending
  }

  function Owners(s: State): map<(Id, Id), Member> {
    map k | k in s.members && s.members[k].role == Owner :: s.members[k]
  }

  lemma OthersKeepInvitations(s: State, op: Op)
    requires !op.Invite? && !op.Accept? && !op.Revoke? && !op.ListInvited?
    ensures Apply(s, op).invitations == s.invitations && Apply(s, op).tokens == s.tokens
  {
  }

  lemma UpdateKeepsOwners(
      s: State, tenant: Id, actor: Id, acting: Role, target: Id, role: Option<Role>, status: Option<MemberStatus>)
    requires acting != Owner
    ensures Owners(UpdateMember(s, tenant, actor, acting, target, role, status).0) == Owners(s)
  {
  }

  lemma RemoveKeepsOwners(s: State, tenant: Id, actor: Id, acting: Role, target: Id)
    requires acting != Owner
    ensures Owners(DeleteMember(s, tenant, actor, acting, target).0) == Owners(s)
  {
  }

  lemma AcceptKeepsOwners(s: State, token: Id, candidate: Id, identity: Id, now: Time)
    requires NoOwnerInvited(s)
    ensures var t := AcceptInvitation(s, token, candidate, identity, now).0; Owners(t) == Owners(s) && NoOwnerInvited(t)
  {
  }

  lemma StepKeepsOwners(s: State, op: Op)
    requires WithoutOwners(op) && NoOwnerInvited(s)
    ensures Owners(Apply(s, op)) == Owners(s) && NoOwnerInvited(Apply(s, op))
  {
    match op {
      case Update(t, actor, acting, target, role, status) => UpdateKeepsOwners(s, t, actor, acting, target, role,
          status);
      case Remove(t, actor, acting, target) => RemoveKeepsOwners(s, t, actor, acting, target);
      case Accept(token, candidate, identity, now) => AcceptKeepsOwners(s, token, candidate, identity, now);
      case _ => OthersKeepMembers(s, op);
    }
    if !op.Invite? && !op.Accept? && !op.Revoke? && !op.ListInvited? { OthersKeepInvitations(s, op); }
  }

  /** Whatever non-owners do, the owners and their standing stay exactly as they are. */
  lemma {:induction false} OthersCannotTouchOwners(s: State, ops: seq<Op>)
    requires NoOwnerInvited(s) && forall i :: 0 <= i < |ops| ==> WithoutOwners(ops[i])
    ensures Owners(Run(s, ops)) == Owners(s) && NoOwnerInvited(Run(s, ops))
    decreases |ops|
  {
    if ops == [] {
    } else {
      StepKeepsOwners(s, ops[0]);
      OthersCannotTouchOwners(Apply(s, ops[0]), ops[1..]);
    }
  }

  // ------------------------------------------------------------------------ integrity

  ghost predicate MembershipsOk(s: State) {
    forall k :: k in s.memberships ==> (k.0, k.2) in s.members && k.1 in s.groups && s.groups[k.1].tenant == k.0
  }

  ghost predicate EntriesOk(s: State) {
    && (forall e :: e in s.acls && s.acls[e].subject.OfGroup? ==> SubjectExists(s, s.acls[e].tenant, s.acls[e].subject))
    && (forall e, f | e in s.acls && f in s.acls ::
          SameTarget(s.acls[e], s.acls[f].tenant, s.acls[f].node, s.acls[f].subject) ==> e == f)
  }

  ghost predicate GroupsOk(s: State) {
    forall g, h :: g in s.groups && h in s.groups && s.groups[g] == s.groups[h] ==> g == h
  }

  predicate Competing(v: Invitation, x: Invitation) {
    v.tenant == x.tenant && v.identity == x.identity && v.status == Pending && x.status == Pending
  }

  ghost predicate InvitationsOk(s: State) {
    && (forall k :: k in s.tokens ==> s.tokens[k] in s.invitations)
    && (forall i, j {:trigger Competing(s.invitations[i], s.invitations[j])} ::
         i in s.invitations && j in s.invitations && Competing(s.invitations[i], s.invitations[j]) ==> i == j)
  }

  /**
    Group memberships name members and groups of the same tenant, group grants name existing
    groups, a subject has at most one entry per node, group names and pending invitations are unique.
   */
  ghost predicate Intact(s: State) {
    MembershipsOk(s) && EntriesOk(s) && GroupsOk(s) && InvitationsOk(s)
  }

  lemma OthersKeepGroups(s: State, op: Op)
    requires !op.AddGroup? && !op.RenameGroup? && !op.DropGroup? && !op.Join? && !op.SetEntry? && !op.DropEntry?
    requires !op.Remove?
    ensures var t := Apply(s, op);
            t.groups == s.groups && t.memberships == s.memberships && t.acls == s.acls
                && s.members.Keys <= t.members.Keys
  {
  }

  lemma RewrittenEntries(s: State, t: State)
    requires EntriesOk(s) && t.groups == s.groups && t.acls.Keys == s.acls.Keys
    requires forall e :: e in s.acls ==> t.acls[e] == s.acls[e].(role := t.acls[e].role)
    ensures EntriesOk(t)
  {
  }

  lemma AddedEntry(s: State, id: Id, e: Entry)
    requires EntriesOk(s) && id !in s.acls && SubjectExists(s, e.tenant, e.subject)
    requires !HasEntry(s, e.tenant, e.node, e.subject)
    ensures EntriesOk(s.(acls := s.acls[id := e]))
  {
  }

  lemma SetEntryKeeps(s: State, d: Drive, allowed: bool, id: Id, tenant: Id, node: Id, subject: Subject, grant: AclRole)
    requires EntriesOk(s) && id !in s.acls
    ensures EntriesOk(SetNodeACL(s, d, allowed, id, tenant, node, subject, grant).0)
  {
    var (t, r) := SetNodeACL(s, d, allowed, id, tenant, node, subject, grant);
    if r.Ok? {
      if HasEntry(s, tenant, node, subject) { RewrittenEntries(s, t); }
          else { AddedEntry(s, id, Entry(tenant, node, subject, grant)); }
    }
  }

  lemma DropEntryKeeps(s: State, allowed: bool, tenant: Id, node: Id, id: Id)
    requires EntriesOk(s)
    ensures EntriesOk(DeleteNodeACL(s, allowed, tenant, node, id).0)
  {
  }

  lemma DropGroupKeeps(s: State, tenant: Id, actor: Id, acting: Role, id: Id)
    requires MembershipsOk(s) && EntriesOk(s) && GroupsOk(s)
    ensures var t := DeleteGroup(s, tenant, actor, acting, id).0; MembershipsOk(t) && EntriesOk(t) && GroupsOk(t)
  {
  }

  lemma AddGroupKeeps(s: State, id: Id, tenant: Id, actor: Id, acting: Role, name: Name)
    requires MembershipsOk(s) && EntriesOk(s) && GroupsOk(s) && id !in s.groups
    ensures var t := CreateGroup(s, id, tenant, actor, acting, name).0; MembershipsOk(t) && EntriesOk(t) && GroupsOk(t)
  {
  }

  lemma RenameGroupKeeps(s: State, tenant: Id, actor: Id, acting: Role, id: Id, name: Name)
    requires MembershipsOk(s) && EntriesOk(s) && GroupsOk(s)
    ensures var t := UpdateGroup(s, tenant, actor, acting, id, name).0; MembershipsOk(t) && EntriesOk(t) && GroupsOk(t)
  {
  }

  lemma InviteKeeps(
      s: State, id: Id, tenant: Id, actor: Id, acting: Role, identity: Id, role: Role, token: Id, expiresAt: Time,
          now: Time)
    requires InvitationsOk(s) && id !in s.invitations
    ensures InvitationsOk(CreateInvitation(s, id, tenant, actor, acting, identity, role, token, expiresAt, now).0)
  {
  }

  lemma AcceptKeeps(s: State, token: Id, candidate: Id, identity: Id, now: Time)
    requires InvitationsOk(s)
    ensures InvitationsOk(AcceptInvitation(s, token, candidate, identity, now).0)
  {
  }

  lemma RevokeKeeps(s: State, tenant: Id, actor: Id, acting: Role, id: Id)
    requires InvitationsOk(s)
    ensures InvitationsOk(RevokeInvitation(s, tenant, actor, acting, id).0)
  {
  }

  lemma LapseKeeps(s: State, tenant: Id, now: Time)
    requires InvitationsOk(s)
    ensures InvitationsOk(LapseInvitations(s, tenant, now))
  {
  }

  lemma InvitationsKept(s: State, op: Op)
    requires InvitationsOk(s) && Admissible(s, op)
    ensures InvitationsOk(Apply(s, op))
  {
    match op
    case Invite(id, tenant, actor, acting, identity, role, token, expiresAt, now) => InviteKeeps(s, id, tenant, actor,
        acting, identity, role, token, expiresAt, now);
    case Accept(token, candidate, identity, now) => AcceptKeeps(s, token, candidate, identity, now);
    case Revoke(tenant, actor, acting, id) => RevokeKeeps(s, tenant, actor, acting, id);
    case ListInvited(tenant, now) => LapseKeeps(s, tenant, now);
    case _ => OthersKeepInvitations(s, op);
  }

  lemma JoinOrLeaveKeeps(s: State, op: Op)
    requires MembershipsOk(s) && (op.Join? || op.Remove?)
    ensures MembershipsOk(Apply(s, op)) && Apply(s, op).groups == s.groups && Apply(s, op).acls == s.acls
  {
  }

  lemma SameGroupsOk(s: State, t: State)
    requires MembershipsOk(s) && EntriesOk(s) && GroupsOk(s)
    requires t.groups == s.groups && t.acls == s.acls && t.memberships == s.memberships
    requires s.members.Keys <= t.members.Keys
    ensures MembershipsOk(t) && EntriesOk(t) && GroupsOk(t)
  {
  }

  lemma SameEntriesOk(s: State, t: State)
    requires EntriesOk(s) && GroupsOk(s) && t.groups == s.groups && t.acls == s.acls
    ensures EntriesOk(t) && GroupsOk(t)
  {
  }

  lemma EntryOpKeepsRest(s: State, op: Op)
    requires op.SetEntry? || op.DropEntry?
    ensures var t := Apply(s, op); t.groups == s.groups && t.memberships == s.memberships && t.members == s.members
  {
  }

  lemma EntryOpKeeps(s: State, op: Op)
    requires MembershipsOk(s) && EntriesOk(s) && GroupsOk(s) && Admissible(s, op) && (op.SetEntry? || op.DropEntry?)
    ensures var t := Apply(s, op); MembershipsOk(t) && EntriesOk(t) && GroupsOk(t)
  {
    EntryOpKeepsRest(s, op);
    match op
    case SetEntry(d, allowed, id, tenant, node, subject, grant) =>
      SetEntryKeeps(s, d, allowed, id, tenant, node, subject, grant);
    case DropEntry(allowed, tenant, node, id) => DropEntryKeeps(s, allowed, tenant, node, id);
  }

  lemma MembershipOpKeeps(s: State, op: Op)
    requires MembershipsOk(s) && EntriesOk(s) && GroupsOk(s) && (op.Join? || op.Remove?)
    ensures var t := Apply(s, op); MembershipsOk(t) && EntriesOk(t) && GroupsOk(t)
  {
    JoinOrLeaveKeeps(s, op);
    SameEntriesOk(s, Apply(s, op));
  }

  lemma GroupOpKeeps(s: State, op: Op)
    requires MembershipsOk(s) && EntriesOk(s) && GroupsOk(s) && Admissible(s, op)
    requires op.AddGroup? || op.RenameGroup? || op.DropGroup?
    ensures var t := Apply(s, op); MembershipsOk(t) && EntriesOk(t) && GroupsOk(t)
  {
    match op
    case AddGroup(id, tenant, actor, acting, name) => AddGroupKeeps(s, id, tenant, actor, acting, name);
    case RenameGroup(tenant, actor, acting, id, name) => RenameGroupKeeps(s, tenant, actor, acting, id, name);
    case DropGroup(tenant, actor, acting, id) => DropGroupKeeps(s, tenant, actor, acting, id);
  }

  lemma GroupsKept(s: State, op: Op)
    requires MembershipsOk(s) && EntriesOk(s) && GroupsOk(s) && Admissible(s, op)
    ensures var t := Apply(s, op); MembershipsOk(t) && EntriesOk(t) && GroupsOk(t)
  {
    if op.SetEntry? || op.DropEntry? {
      EntryOpKeeps(s, op);
    } else if op.AddGroup? || op.RenameGroup? || op.DropGroup? {
      GroupOpKeeps(s, op);
    } else if op.Join? || op.Remove? {
      MembershipOpKeeps(s, op);
    } else {
      OthersKeepGroups(s, op);
      SameGroupsOk(s, Apply(s, op));
    }
  }

  lemma StepKeepsIntact(s: State, op: Op)
    requires Intact(s) && Admissible(s, op)
    ensures Intact(Apply(s, op))
  {
    InvitationsKept(s, op);
    GroupsKept(s, op);
  }

  lemma {:induction false} RunKeepsIntact(s: State, ops: seq<Op>)
    requires Intact(s) && AdmissibleRun(s, ops)
    ensures Intact(Run(s, ops))
    decreases |ops|
  {
    if ops == [] {
    } else {
      StepKeepsIntact(s, ops[0]);
      RunKeepsIntact(Apply(s, ops[0]), ops[1..]);
    }
  }

  /**
    An invitation is accepted under a principal id generated for the call. So an identity that
    is already known to the system can never accept one: the first acceptance succeeds exactly
    when the identity is unmapped.
   */
  lemma AcceptanceNeedsANewIdentity(s: State, token: Id, candidate: Id, identity: Id, now: Time)
    requires InvitationsOk(s) && candidate !in s.principals.Values && token in s.tokens
    requires var v := s.invitations[s.tokens[token]]; v.identity == identity && v.status == Pending && now < v.expiresAt
    ensures AcceptInvitation(s, token, candidate, identity, now).1.Ok? <==> identity !in s.principals
    ensures identity in s.principals ==> AcceptInvitation(s, token, candidate, identity, now) == (s, Err(NameConflict))
  {
  }
}
