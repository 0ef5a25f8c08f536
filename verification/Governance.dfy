/**
  Members, invitations, groups and access control entries of a tenant, as values: what one
  governed call does to the repository's maps.
 */
module Governance {
  import opened Base
  import opened Namespace

  datatype Role = Owner | Admin | Editor | Viewer
  datatype MemberStatus = Working | Suspended
  datatype Member = Member(role: Role, status: MemberStatus)

  datatype Group = Group(tenant: Id, name: Name)

  datatype Subject = Principal(principal: Id) | OfGroup(group: Id)
  datatype AclRole = Reader | Contributor | Manager
  datatype Entry = Entry(tenant: Id, node: Id, subject: Subject, role: AclRole)

  datatype InvitationStatus = Pending | Accepted | Revoked | Lapsed
  datatype Invitation = Invitation(tenant: Id, identity: Id, role: Role, status: InvitationStatus, acceptedBy: Id,
      expiresAt: Time)

  /**
    `members` is keyed by tenant and principal, `principals` by external identity (issuer and
    subject), `memberships` holds tenant, group and principal, `tokens` maps a token hash.
   */
  datatype State = State(
    members: map<(Id, Id), Member>, principals: map<Id, Id>, groups: map<Id, Group>, memberships: set<(Id, Id, Id)>,
    acls: map<Id, Entry>, invitations: map<Id, Invitation>, tokens: map<Id, Id>)

  // -------------------------------------------------------------------------- members

  predicate ActiveOwner(s: State, tenant: Id, principal: Id) {
    (tenant, principal) in s.members && s.members[(tenant, principal)] == Member(Owner, Working)
  }

  predicate OtherActiveOwner(s: State, tenant: Id, except: Id) {
    exists p :: p in s.members && p.0 == tenant && p.1 != except && s.members[p] == Member(Owner, Working)
  }

  /** managingActor: an active owner or admin acting under the role they hold. */
  predicate Manages(s: State, tenant: Id, actor: Id, role: Role) {
    (tenant, actor) in s.members && s.members[(tenant, actor)] == Member(role, Working)
        && (role == Owner || role == Admin)
  }

  /** EnsureOIDCMember: seeds a membership at start-up. */
  function EnsureMember(s: State, tenant: Id, identity: Id, principal: Id, role: Role): (r: (State, Result<Member>))
    ensures r.0 == s.(members := r.0.members, principals := r.0.principals)
    ensures s.members.Keys <= r.0.members.Keys
  {
    if identity in s.principals && s.principals[identity] != principal then (s, Err(NameConflict))
    else if identity !in s.principals && principal in s.principals.Values then (s, Err(NameConflict))
    else
      var t := s.(principals := s.principals[identity := principal]);
      if (tenant, principal) in t.members then (t, Ok(t.members[(tenant, principal)]))
      else (t.(members := t.members[(tenant, principal) := Member(role, Working)]), Ok(Member(role, Working)))
  }

  function UpdateMember(
    s: State, tenant: Id, actor: Id, acting: Role, target: Id, role: Option<Role>, status: Option<MemberStatus>)
    : (r: (State, Result<Member>))
    ensures r.0 == s.(members := r.0.members)
    ensures s.members.Keys <= r.0.members.Keys
  {
    if role == None && status == None then (s, Err(InvalidRequest))
    else if !Manages(s, tenant, actor, acting) then (s, Err(Forbidden))
    else if (tenant, target) !in s.members then (s, Err(NotFound))
    else
      var m := s.members[(tenant, target)];
      if acting == Admin && (m.role == Owner || role == Some(Owner)) then (s, Err(Forbidden))
      else
        var n := Member(if role.Some? then role.value else m.role, if status.Some? then status.value else m.status);
        if m == Member(Owner, Working) && n != m && !OtherActiveOwner(s, tenant, target) then (s, Err(InvalidState))
        else (s.(members := s.members[(tenant, target) := n]), Ok(n))
  }

  function DeleteMember(s: State, tenant: Id, actor: Id, acting: Role, target: Id): (r: (State, Result<()>))
    ensures r.0 == s.(members := r.0.members, memberships := r.0.memberships)
  {
    if !Manages(s, tenant, actor, acting) then (s, Err(Forbidden))
    else if (tenant, target) !in s.members then (s, Err(NotFound))
    else
      var m := s.members[(tenant, target)];
      if acting == Admin && m.role == Owner then (s, Err(Forbidden))
      else if m == Member(Owner, Working) && !OtherActiveOwner(s, tenant, target) then (s, Err(InvalidState))
      else
        (s.(members := s.members - {(tenant, target)},
            memberships := set k | k in s.memberships && !(k.0 == tenant && k.2 == target)), Ok(()))
  }

  // ---------------------------------------------------------------------- invitations

  predicate Invited(s: State, tenant: Id, identity: Id) {
    exists i :: i in s.invitations && s.invitations[i].tenant == tenant && s.invitations[i].identity == identity
        && s.invitations[i].status == Pending
  }

  function CreateInvitation(
    s: State, id: Id, tenant: Id, actor: Id, acting: Role, identity: Id, role: Role, token: Id,
    expiresAt: Time, now: Time)
    : (r: (State, Result<Invitation>))
    ensures r.0 == s.(invitations := r.0.invitations, tokens := r.0.tokens)
  {
    if !Manages(s, tenant, actor, acting) then (s, Err(Forbidden))
    else if expiresAt <= now then (s, Err(InvalidRequest))
    else if acting == Admin && role == Owner then (s, Err(Forbidden))
    else if Invited(s, tenant, identity) then (s, Err(NameConflict))
    else
      var v := Invitation(tenant, identity, role, Pending, NONE, expiresAt);
      (s.(invitations := s.invitations[id := v], tokens := s.tokens[token := id]), Ok(v))
  }

  /** Answers the membership; `candidate` is the principal id generated for the caller. */
  function AcceptInvitation(s: State, token: Id, candidate: Id, identity: Id, now: Time): (r: (State, Result<Member>))
    ensures r.0 == s.(principals := r.0.principals, members := r.0.members, invitations := r.0.invitations)
    ensures s.members.Keys <= r.0.members.Keys
  {
    if token !in s.tokens || s.tokens[token] !in s.invitations then (s, Err(NotFound))
    else
      var id := s.tokens[token];
      var v := s.invitations[id];
      if v.identity != identity then (s, Err(Forbidden))
      else if v.status == Accepted then
        (s, if (v.tenant, v.acceptedBy) in s.members then Ok(s.members[(v.tenant, v.acceptedBy)]) else Err(Internal))
      else if v.status != Pending then (s, Err(InvalidState))
      else if v.expiresAt <= now then (s.(invitations := s.invitations[id := v.(status := Lapsed)]), Err(InvalidState))
      else if identity in s.principals && s.principals[identity] != candidate then (s, Err(NameConflict))
      else
        var m := if (v.tenant, candidate) in s.members then s.members[(v.tenant, candidate)]
            else Member(v.role, Working);
        (s.(principals := s.principals[identity := candidate],
            members := s.members[(v.tenant, candidate) := m],
            invitations := s.invitations[id := v.(status := Accepted, acceptedBy := candidate)]), Ok(m))
  }

  function RevokeInvitation(s: State, tenant: Id, actor: Id, acting: Role, id: Id): (r: (State, Result<()>))
    ensures r.0 == s.(invitations := r.0.invitations)
  {
    if !Manages(s, tenant, actor, acting) then (s, Err(Forbidden))
    else if id !in s.invitations || s.invitations[id].tenant != tenant then (s, Err(NotFound))
    else if s.invitations[id].status != Pending then (s, Err(InvalidState))
    else (s.(invitations := s.invitations[id := s.invitations[id].(status := Revoked)]), Ok(()))
  }

  /** Does this invitation lapse when the tenant's invitations are listed at `now`? */
  predicate Lapses(v: Invitation, tenant: Id, now: Time) {
    v.tenant == tenant && v.status == Pending && v.expiresAt <= now
  }

  /** What ListInvitations writes: pending invitations of the tenant that have run out. */
  function LapseInvitations(s: State, tenant: Id, now: Time): State {
    s.(invitations := map i | i in s.invitations ::
         if Lapses(s.invitations[i], tenant, now) then s.invitations[i].(status := Lapsed) else s.invitations[i])
  }

  // --------------------------------------------------------------------------- groups

  function CreateGroup(s: State, id: Id, tenant: Id, actor: Id, acting: Role, name: Name): (r: (State, Result<Group>))
    ensures r.0 == s.(groups := r.0.groups)
  {
    if !Manages(s, tenant, actor, acting) then (s, Err(Forbidden))
    else if exists g :: g in s.groups && s.groups[g] == Group(tenant, name) then (s, Err(NameConflict))
    else (s.(groups := s.groups[id := Group(tenant, name)]), Ok(Group(tenant, name)))
  }

  function UpdateGroup(s: State, tenant: Id, actor: Id, acting: Role, id: Id, name: Name): (r: (State, Result<Group>))
    ensures r.0 == s.(groups := r.0.groups)
  {
    if !Manages(s, tenant, actor, acting) then (s, Err(Forbidden))
    else if id !in s.groups || s.groups[id].tenant != tenant then (s, Err(NotFound))
    else if exists g :: g in s.groups && g != id && s.groups[g] == Group(tenant, name) then (s, Err(NameConflict))
    else (s.(groups := s.groups[id := Group(tenant, name)]), Ok(Group(tenant, name)))
  }

  function DeleteGroup(s: State, tenant: Id, actor: Id, acting: Role, id: Id): (r: (State, Result<()>))
    ensures r.0 == s.(groups := r.0.groups, memberships := r.0.memberships, acls := r.0.acls)
  {
    if !Manages(s, tenant, actor, acting) then (s, Err(Forbidden))
    else if id !in s.groups || s.groups[id].tenant != tenant then (s, Err(NotFound))
    else
      (s.(groups := s.groups - {id},
          memberships := (set k | k in s.memberships && !(k.0 == tenant && k.1 == id)),
          acls := map e | e in s.acls && !(s.acls[e].tenant == tenant && s.acls[e].subject == OfGroup(id)) ::
              s.acls[e]), Ok(()))
  }

  function ChangeMembership(
    s: State, tenant: Id, actor: Id, acting: Role, group: Id, principal: Id, add: bool)
    : (r: (State, Result<()>))
    ensures r.0 == s.(memberships := r.0.memberships)
  {
    if !Manages(s, tenant, actor, acting) then (s, Err(Forbidden))
    else if group !in s.groups || s.groups[group].tenant != tenant then (s, Err(NotFound))
    else if add && (tenant, principal) !in s.members then (s, Err(NotFound))
    else if add then (s.(memberships := s.memberships + {(tenant, group, principal)}), Ok(()))
    else (s.(memberships := s.memberships - {(tenant, group, principal)}), Ok(()))
  }

  // --------------------------------------------------------------- access control lists

  predicate SubjectExists(s: State, tenant: Id, subject: Subject) {
    match subject
    case Principal(p) => (tenant, p) in s.members
    case OfGroup(g) => g in s.groups && s.groups[g].tenant == tenant
  }

  predicate SameTarget(e: Entry, tenant: Id, node: Id, subject: Subject) {
    e.tenant == tenant && e.node == node && e.subject == subject
  }

  predicate HasEntry(s: State, tenant: Id, node: Id, subject: Subject) {
    exists e :: e in s.acls && SameTarget(s.acls[e], tenant, node, subject)
  }

  /** `allowed` is the answer of canManageACL; an entry for the same subject is replaced, not added. */
  function SetNodeACL(
    s: State, d: Drive, allowed: bool, id: Id, tenant: Id, node: Id, subject: Subject, role: AclRole)
    : (r: (State, Result<()>))
    ensures r.0 == s.(acls := r.0.acls)
  {
    if !allowed then (s, Err(Forbidden))
    else if !VisibleIn(d, tenant, node) then (s, Err(NotFound))
    else if !SubjectExists(s, tenant, subject) then (s, Err(NotFound))
    else if HasEntry(s, tenant, node, subject) then
      (s.(acls := map e | e in s.acls :: if SameTarget(s.acls[e], tenant, node, subject) then s.acls[e].(role := role)
          else s.acls[e]), Ok(()))
    else (s.(acls := s.acls[id := Entry(tenant, node, subject, role)]), Ok(()))
  }

  function DeleteNodeACL(s: State, allowed: bool, tenant: Id, node: Id, entry: Id): (r: (State, Result<()>))
    ensures r.0 == s.(acls := r.0.acls)
  {
    if !allowed then (s, Err(Forbidden))
    else if entry !in s.acls || s.acls[entry].tenant != tenant || s.acls[entry].node != node then (s, Err(NotFound))
    else (s.(acls := s.acls - {entry}), Ok(()))
  }
}
