/** What governed calls are for: who may do what after them, and that nobody else is affected. */
module MemberEffects {
  import opened Base
  import opened Namespace
  import opened Governance
  import opened Access

  // ------------------------------------------------------------------------ who may do what

  predicate MayByRole(role: Role, c: Capability) {
    match c
    case Read => true
    case Write => role in {Owner, Admin, Editor}
    case Delete => role in {Owner, Admin}
    case ManageAcl => role in {Owner, Admin}
  }

  predicate MayByGrant(role: AclRole, c: Capability) {
    match c
    case Read => true
    case Write => role in {Contributor, Manager}
    case Delete => role == Manager
    case ManageAcl => role == Manager
  }

  /** An entry for the principal, or for a group of theirs, on the node or above it suffices. */
  ghost predicate Granted(s: State, d: Drive, tenant: Id, principal: Id, node: Id, c: Capability) {
    exists e :: e in s.acls && s.acls[e].node in d.nodes && d.nodes[s.acls[e].node].tenant == tenant
             && Under(d.nodes, node, s.acls[e].node) && Applies(s, s.acls[e], tenant, principal)
             && MayByGrant(s.acls[e].role, c)
  }

  /** Authorization spelled out: an active member, by role anywhere in the tenant or by a grant on or above the node. */
  lemma WhoMay(s: State, d: Drive, tenant: Id, principal: Id, node: Id, c: Capability)
    ensures Authorized(s, d, tenant, principal, node, c)
       <==> && NodeExists(d, tenant, node) && IsActive(s, tenant, principal)
            && (MayByRole(s.members[(tenant, principal)].role, c) || Granted(s, d, tenant, principal, node, c))
  {
    if (tenant, principal) in s.members {
      var grants := GrantedLevels(s, d, tenant, principal, node);
      var level := EffectiveLevel(s, d, tenant, principal, node);
      HighestIsMaximum(s, d, tenant, principal, node);
      if Granted(s, d, tenant, principal, node, c) {
        var e :| e in s.acls && s.acls[e].node in d.nodes && d.nodes[s.acls[e].node].tenant == tenant
              && Under(d.nodes, node, s.acls[e].node) && Applies(s, s.acls[e], tenant, principal)
              && MayByGrant(s.acls[e].role, c);
        assert GrantLevel(s.acls[e].role) in grants;
      }
      if level >= Needed(c) && level in grants {
        var e :| e in s.acls && s.acls[e].node in d.nodes && d.nodes[s.acls[e].node].tenant == tenant
              && Under(d.nodes, node, s.acls[e].node) && Applies(s, s.acls[e], tenant, principal)
              && level == GrantLevel(s.acls[e].role);
        assert MayByGrant(s.acls[e].role, c);
      }
    }
  }

  /** Nothing that decides about this principal is different. */
  ghost predicate SameStanding(s: State, t: State, tenant: Id, principal: Id) {
    && t.acls == s.acls
    && ((tenant, principal) in s.members <==> (tenant, principal) in t.members)
    && ((tenant, principal) in s.members ==> t.members[(tenant, principal)] == s.members[(tenant, principal)])
    && (forall g :: (tenant, g, principal) in s.memberships <==> (tenant, g, principal) in t.memberships)
  }

  lemma SameStandingSameAccess(s: State, t: State, d: Drive, tenant: Id, principal: Id, node: Id, c: Capability)
    requires SameStanding(s, t, tenant, principal)
    ensures Authorized(t, d, tenant, principal, node, c) <==> Authorized(s, d, tenant, principal, node, c)
  {
    assert GrantedLevels(t, d, tenant, principal, node) == GrantedLevels(s, d, tenant, principal, node);
  }

  // -------------------------------------------------------------------------------- members

  /** Would this change take away the last active owner? */
  predicate LosesLastOwner(s: State, tenant: Id, target: Id, after: Option<Member>) {
    ActiveOwner(s, tenant, target) && after != Some(Member(Owner, Working)) && !OtherActiveOwner(s, tenant, target)
  }

  function Changed(m: Member, role: Option<Role>, status: Option<MemberStatus>): Member {
    Member(if role.Some? then role.value else m.role, if status.Some? then status.value else m.status)
  }

  lemma UpdateMemberSucceeds(
    s: State, tenant: Id, actor: Id, acting: Role, target: Id, role: Option<Role>, status: Option<MemberStatus>)
    ensures UpdateMember(s, tenant, actor, acting, target, role, status).1.Ok?
       <==> && (role.Some? || status.Some?) && Manages(s, tenant, actor, acting) && (tenant, target) in s.members
            && (acting == Admin ==> Owner !in {s.members[(tenant, target)].role,
                                               Changed(s.members[(tenant, target)], role, status).role})
            && !LosesLastOwner(s, tenant, target, Some(Changed(s.members[(tenant, target)], role, status)))
  {
  }

  /** The member has the role and status asked for: a suspended one may nothing, an active one what the role says. */
  lemma MemberChangeTakesEffect(
    s: State, d: Drive, tenant: Id, actor: Id, acting: Role, target: Id, role: Option<Role>,
    status: Option<MemberStatus>, node: Id, c: Capability)
    requires UpdateMember(s, tenant, actor, acting, target, role, status).1.Ok? && NodeExists(d, tenant, node)
    ensures var t := UpdateMember(s, tenant, actor, acting, target, role, status).0;
            var m := Changed(s.members[(tenant, target)], role, status);
            && (tenant, target) in t.members && t.members[(tenant, target)] == m
            && (m.status == Suspended ==> !Authorized(t, d, tenant, target, node, c))
            && (m.status == Working && MayByRole(m.role, c) ==> Authorized(t, d, tenant, target, node, c))
  {
    WhoMay(UpdateMember(s, tenant, actor, acting, target, role, status).0, d, tenant, target, node, c);
  }

  lemma MemberChangeIsLocal(
    s: State, d: Drive, tenant: Id, actor: Id, acting: Role, target: Id, role: Option<Role>,
    status: Option<MemberStatus>, other: (Id, Id), node: Id, c: Capability)
    requires other != (tenant, target)
    ensures Authorized(UpdateMember(s, tenant, actor, acting, target, role, status).0, d, other.0, other.1, node, c)
       <==> Authorized(s, d, other.0, other.1, node, c)
  {
    var t := UpdateMember(s, tenant, actor, acting, target, role, status).0;
    SameStandingSameAccess(s, t, d, other.0, other.1, node, c);
  }

  lemma DeleteMemberSucceeds(s: State, tenant: Id, actor: Id, acting: Role, target: Id)
    ensures DeleteMember(s, tenant, actor, acting, target).1.Ok?
       <==> && Manages(s, tenant, actor, acting) && (tenant, target) in s.members
            && (acting == Admin ==> s.members[(tenant, target)].role != Owner)
            && !LosesLastOwner(s, tenant, target, None)
  {
  }

  /** A removed member is in no group and may nothing; everybody else may what they could. */
  lemma RemovedMemberMayNothing(
    s: State, d: Drive, tenant: Id, actor: Id, acting: Role, target: Id, other: (Id, Id), node: Id, c: Capability)
    requires DeleteMember(s, tenant, actor, acting, target).1.Ok?
    ensures var t := DeleteMember(s, tenant, actor, acting, target).0;
            && !Authorized(t, d, tenant, target, node, c) && (forall g :: (tenant, g, target) !in t.memberships)
            && (other != (tenant, target) ==>
                  (Authorized(t, d, other.0, other.1, node, c) <==> Authorized(s, d, other.0, other.1, node, c)))
  {
    var t := DeleteMember(s, tenant, actor, acting, target).0;
    if other != (tenant, target) { SameStandingSameAccess(s, t, d, other.0, other.1, node, c); }
  }

  /** A seeded membership is there, with its role unless it was there before; identities keep their principal. */
  lemma SeededMemberIsThere(s: State, tenant: Id, identity: Id, principal: Id, role: Role)
    ensures var (t, m) := EnsureMember(s, tenant, identity, principal, role);
            && (m.Ok? <==> if identity in s.principals then s.principals[identity] == principal
                           else principal !in s.principals.Values)
            && (m.Ok? ==>
                  && identity in t.principals && t.principals[identity] == principal
                  && (tenant, principal) in t.members && t.members[(tenant, principal)] == m.value
                  && m.value == (if (tenant, principal) in s.members then s.members[(tenant, principal)]
                                 else Member(role, Working)))
            && (m.Err? ==> t == s)
            && forall p :: p in s.members ==> p in t.members && t.members[p] == s.members[p]
  {
  }

  // ---------------------------------------------------------------------------- invitations

  lemma CreateInvitationSucceeds(
    s: State, id: Id, tenant: Id, actor: Id, acting: Role, identity: Id, role: Role, token: Id,
    expiresAt: Time, now: Time)
    ensures var (t, r) := CreateInvitation(s, id, tenant, actor, acting, identity, role, token, expiresAt, now);
            && (r.Ok? <==> && Manages(s, tenant, actor, acting) && now < expiresAt
                           && (role == Owner ==> acting == Owner) && !Invited(s, tenant, identity))
            && (r.Ok? ==> Invited(t, tenant, identity)) && (r.Err? ==> t == s)
  {
    var (t, r) := CreateInvitation(s, id, tenant, actor, acting, identity, role, token, expiresAt, now);
    if r.Ok? { assert t.invitations[id].status == Pending; }
  }

  /** An invitation, accepted in time by whom it names, makes them a member with the role it gives. */
  lemma InvitationGivesItsRole(
    s: State, d: Drive, id: Id, tenant: Id, actor: Id, acting: Role, identity: Id, role: Role, token: Id,
    expiresAt: Time, now: Time, candidate: Id, at: Time, node: Id, c: Capability)
    requires CreateInvitation(s, id, tenant, actor, acting, identity, role, token, expiresAt, now).1.Ok?
    requires at < expiresAt && (identity in s.principals ==> s.principals[identity] == candidate)
    requires (tenant, candidate) !in s.members && NodeExists(d, tenant, node)
    ensures var invited := CreateInvitation(s, id, tenant, actor, acting, identity, role, token, expiresAt, now).0;
            var (t, m) := AcceptInvitation(invited, token, candidate, identity, at);
            && m == Ok(Member(role, Working)) && (tenant, candidate) in t.members
            && t.members == s.members[(tenant, candidate) := Member(role, Working)]
            && identity in t.principals && t.principals[identity] == candidate
            && (MayByRole(role, c) ==> Authorized(t, d, tenant, candidate, node, c))
  {
    var invited := CreateInvitation(s, id, tenant, actor, acting, identity, role, token, expiresAt, now).0;
    WhoMay(AcceptInvitation(invited, token, candidate, identity, at).0, d, tenant, candidate, node, c);
  }

  /** It is no use to anybody else, after its time, or once revoked; an accepted one answers its member again. */
  lemma InvitationIsBound(s: State, token: Id, candidate: Id, identity: Id, now: Time)
    ensures var (t, m) := AcceptInvitation(s, token, candidate, identity, now);
            && (m.Ok? ==> && token in s.tokens && s.tokens[token] in s.invitations
                          && var v := s.invitations[s.tokens[token]];
                             && v.identity == identity
                             && if v.status == Accepted then t == s && (v.tenant, v.acceptedBy) in s.members
                                     && m.value == s.members[(v.tenant, v.acceptedBy)]
                                else v.status == Pending && now < v.expiresAt)
            && (m.Err? ==> t.members == s.members && t.principals == s.principals)
  {
  }

  lemma RevokedInvitationIsUseless(
    s: State, tenant: Id, actor: Id, acting: Role, id: Id, token: Id, candidate: Id, identity: Id, now: Time)
    requires RevokeInvitation(s, tenant, actor, acting, id).1.Ok? && token in s.tokens && s.tokens[token] == id
    ensures var t := RevokeInvitation(s, tenant, actor, acting, id).0;
            var (u, m) := AcceptInvitation(t, token, candidate, identity, now);
            m.Err? && u == t
  {
  }

  lemma RevokeInvitationSucceeds(s: State, tenant: Id, actor: Id, acting: Role, id: Id)
    ensures RevokeInvitation(s, tenant, actor, acting, id).1.Ok?
       <==> && Manages(s, tenant, actor, acting) && id in s.invitations && s.invitations[id].tenant == tenant
            && s.invitations[id].status == Pending
  {
  }

  // ---------------------------------------------------------------------- grants and groups

  predicate HasGroup(s: State, tenant: Id, name: Name, except: Id) {
    exists g :: g in s.groups && g != except && s.groups[g] == Group(tenant, name)
  }

  /** A group is made, or renamed, exactly if no other group of the tenant has the name; the others stay. */
  lemma GroupGetsItsName(s: State, id: Id, tenant: Id, actor: Id, acting: Role, name: Name)
    requires NONE !in s.groups
    ensures var (t, r) := CreateGroup(s, id, tenant, actor, acting, name);
            && (r.Ok? <==> Manages(s, tenant, actor, acting) && !HasGroup(s, tenant, name, NONE))
            && t.groups == (if r.Ok? then s.groups[id := Group(tenant, name)] else s.groups)
    ensures var (t, r) := UpdateGroup(s, tenant, actor, acting, id, name);
            && (r.Ok? <==> && Manages(s, tenant, actor, acting) && id in s.groups && s.groups[id].tenant == tenant
                           && !HasGroup(s, tenant, name, id))
            && t.groups == (if r.Ok? then s.groups[id := Group(tenant, name)] else s.groups)
  {
    if HasGroup(s, tenant, name, NONE) {
      var g :| g in s.groups && g != NONE && s.groups[g] == Group(tenant, name);
    }
  }

  lemma DeleteGroupSucceeds(s: State, tenant: Id, actor: Id, acting: Role, id: Id)
    ensures DeleteGroup(s, tenant, actor, acting, id).1.Ok?
       <==> Manages(s, tenant, actor, acting) && id in s.groups && s.groups[id].tenant == tenant
  {
  }

  /** Joining needs a member, leaving does not; nobody else's membership changes. */
  lemma ChangeMembershipSucceeds(s: State, tenant: Id, actor: Id, acting: Role, group: Id, principal: Id, add: bool)
    ensures var (t, r) := ChangeMembership(s, tenant, actor, acting, group, principal, add);
            && (r.Ok? <==> && Manages(s, tenant, actor, acting) && group in s.groups && s.groups[group].tenant == tenant
                           && (add ==> (tenant, principal) in s.members))
            && (r.Ok? ==> ((tenant, group, principal) in t.memberships <==> add)) && (r.Err? ==> t == s)
            && forall k :: k != (tenant, group, principal) ==> (k in t.memberships <==> k in s.memberships)
  {
  }

  lemma SetNodeACLSucceeds(
    s: State, d: Drive, allowed: bool, id: Id, tenant: Id, node: Id, subject: Subject, role: AclRole)
    ensures SetNodeACL(s, d, allowed, id, tenant, node, subject, role).1.Ok?
       <==> allowed && VisibleIn(d, tenant, node) && SubjectExists(s, tenant, subject)
  {
  }

  lemma DeleteNodeACLSucceeds(s: State, allowed: bool, tenant: Id, node: Id, entry: Id)
    ensures var (t, r) := DeleteNodeACL(s, allowed, tenant, node, entry);
            && (r.Ok? <==> allowed && entry in s.acls && s.acls[entry].tenant == tenant && s.acls[entry].node == node)
            && (r.Ok? ==> t.acls == s.acls - {entry}) && (r.Err? ==> t == s)
  {
  }

  predicate Covers(s: State, tenant: Id, subject: Subject, principal: Id) {
    match subject
    case Principal(p) => p == principal
    case OfGroup(g) => (tenant, g, principal) in s.memberships
  }

  /** A grant takes effect for everybody it covers, on the node and on everything below it. */
  lemma GrantTakesEffect(
    s: State, d: Drive, id: Id, tenant: Id, node: Id, subject: Subject, role: AclRole, principal: Id, below: Id,
    c: Capability)
    requires SetNodeACL(s, d, true, id, tenant, node, subject, role).1.Ok? && id !in s.acls
    requires Covers(s, tenant, subject, principal) && IsActive(s, tenant, principal) && MayByGrant(role, c)
    requires NodeExists(d, tenant, below) && Under(d.nodes, below, node)
    ensures Authorized(SetNodeACL(s, d, true, id, tenant, node, subject, role).0, d, tenant, principal, below, c)
  {
    var t := SetNodeACL(s, d, true, id, tenant, node, subject, role).0;
    var e := EntryIsSet(s, d, id, tenant, node, subject, role);
    assert Granted(t, d, tenant, principal, below, c);
    WhoMay(t, d, tenant, principal, below, c);
  }

  /** The subject has an entry with the new role on the node, and none with another. */
  lemma EntryIsSet(s: State, d: Drive, id: Id, tenant: Id, node: Id, subject: Subject, role: AclRole) returns (e: Id)
    requires SetNodeACL(s, d, true, id, tenant, node, subject, role).1.Ok? && id !in s.acls
    ensures var t := SetNodeACL(s, d, true, id, tenant, node, subject, role).0;
            && e in t.acls && t.acls[e] == Entry(tenant, node, subject, role)
            && (forall x :: x in t.acls && SameTarget(t.acls[x], tenant, node, subject) ==> t.acls[x].role == role)
            && (forall x :: x in s.acls && !SameTarget(s.acls[x], tenant, node, subject) ==>
                  x in t.acls && t.acls[x] == s.acls[x])
  {
    if HasEntry(s, tenant, node, subject) {
      e :| e in s.acls && SameTarget(s.acls[e], tenant, node, subject);
    } else {
      e := id;
    }
  }

  /** Who joins a group gets what the group was granted. */
  lemma MembershipTakesEffect(
    s: State, d: Drive, tenant: Id, actor: Id, acting: Role, group: Id, principal: Id, entry: Id, node: Id,
    c: Capability)
    requires ChangeMembership(s, tenant, actor, acting, group, principal, true).1.Ok? && IsActive(s, tenant, principal)
    requires entry in s.acls && s.acls[entry].tenant == tenant && s.acls[entry].subject == OfGroup(group)
    requires MayByGrant(s.acls[entry].role, c) && NodeExists(d, tenant, s.acls[entry].node)
    requires NodeExists(d, tenant, node) && Under(d.nodes, node, s.acls[entry].node)
    ensures var t := ChangeMembership(s, tenant, actor, acting, group, principal, true).0;
            Authorized(t, d, tenant, principal, node, c)
  {
    var t := ChangeMembership(s, tenant, actor, acting, group, principal, true).0;
    assert Applies(t, t.acls[entry], tenant, principal);
    assert Granted(t, d, tenant, principal, node, c);
    WhoMay(t, d, tenant, principal, node, c);
  }

  /** With its last grant gone a member is left with what the role says. */
  lemma WithoutGrantsTheRoleDecides(
    s: State, d: Drive, tenant: Id, node: Id, entry: Id, principal: Id, below: Id, c: Capability)
    requires DeleteNodeACL(s, true, tenant, node, entry).1.Ok? && IsActive(s, tenant, principal)
    requires NodeExists(d, tenant, below)
    requires forall e :: e in s.acls && e != entry ==> !Applies(s, s.acls[e], tenant, principal)
    ensures Authorized(DeleteNodeACL(s, true, tenant, node, entry).0, d, tenant, principal, below, c)
       <==> MayByRole(s.members[(tenant, principal)].role, c)
  {
    var t := DeleteNodeACL(s, true, tenant, node, entry).0;
    WhoMay(t, d, tenant, principal, below, c);
  }

  /** A deleted group has no members and no grants left; grants to anybody else stay. */
  lemma DeletedGroupGrantsNothing(s: State, tenant: Id, actor: Id, acting: Role, id: Id, e: Id, principal: Id)
    requires DeleteGroup(s, tenant, actor, acting, id).1.Ok?
    ensures var t := DeleteGroup(s, tenant, actor, acting, id).0;
            && id !in t.groups && (tenant, id, principal) !in t.memberships
            && (e in t.acls <==> e in s.acls && !(s.acls[e].tenant == tenant && s.acls[e].subject == OfGroup(id)))
            && (e in t.acls ==> t.acls[e] == s.acls[e])
            && (forall g | g != id ::
                  (tenant, g, principal) in t.memberships <==> (tenant, g, principal) in s.memberships)
  {
  }
}
