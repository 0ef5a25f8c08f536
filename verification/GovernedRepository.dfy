/** The repository's governance maps, changed in place under its lock. */
module GovernedRepository {
  import opened Base
  import opened Namespace
  import opened Governance
  import Access

  ghost predicate OneEntryPerTarget(acls: map<Id, Entry>) {
    forall e, f | e in acls && f in acls :: SameTarget(acls[e], acls[f].tenant, acls[f].node, acls[f].subject) ==>
        e == f
  }

  /** With one entry per target, rewriting the one found is rewriting every match. */
  lemma OnlyEntryChanges(s: State, d: Drive, id: Id, tenant: Id, node: Id, subject: Subject, role: AclRole, e: Id)
    requires OneEntryPerTarget(s.acls)
    requires e in s.acls && SameTarget(s.acls[e], tenant, node, subject) && VisibleIn(d, tenant, node)
    requires SubjectExists(s, tenant, subject)
    ensures Governance.SetNodeACL(s, d, true, id, tenant, node, subject,
            role) == (s.(acls := s.acls[e := s.acls[e].(role := role)]), Ok(()))
  {
    assert HasEntry(s, tenant, node, subject);
    assert Governance.SetNodeACL(s, d, true, id, tenant, node, subject,
        role).0.acls == s.acls[e := s.acls[e].(role := role)];
  }

  class Repository {
    var members: map<(Id, Id), Member>
    var principals: map<Id, Id>
    var groups: map<Id, Group>
    var groupMembers: set<(Id, Id, Id)>
    var acls: map<Id, Entry>
    var invitations: map<Id, Invitation>
    var invitationTokens: map<Id, Id>

    function Value(): State
      reads this
    {
      State(members, principals, groups, groupMembers, acls, invitations, invitationTokens)
    }

    constructor ()
      ensures Value() == State(map[], map[], map[], {}, map[], map[], map[])
    {
      members, principals, groups, groupMembers := map[], map[], map[], {};
      acls, invitations, invitationTokens := map[], map[], map[];
    }

    method ActiveOwnerCount(tenant: Id, except: Id) returns (count: nat)
      ensures count == |set k | k in members && k.0 == tenant && k.1 != except && members[k] == Member(Owner, Working)|
      ensures count == 0 <==> !OtherActiveOwner(Value(), tenant, except)
    {
      count := 0;
      ghost var seen: set<(Id, Id)> := {};
      var todo := members.Keys;
      while todo != {}
        invariant todo <= members.Keys
        invariant seen == set k | k in members && k !in todo && k.0 == tenant && k.1 != except
                && members[k] == Member(Owner, Working)
        invariant count == |seen|
        decreases todo
      {
        var k :| k in todo;
        todo := todo - {k};
        if k.0 == tenant && k.1 != except && members[k].role == Owner && members[k].status == Working {
          count := count + 1;
          seen := seen + {k};
        }
      }
      assert seen == set k | k in members && k.0 == tenant && k.1 != except && members[k] == Member(Owner, Working);
      if OtherActiveOwner(Value(), tenant, except) {
        var k :| k in members && k.0 == tenant && k.1 != except && members[k] == Member(Owner, Working);
        assert k in seen;
      } else {
        assert seen == {};
      }
    }

    method UpdateMember(
        tenant: Id, actor: Id, acting: Role, target: Id, role: Option<Role>, status: Option<MemberStatus>)
            returns (r: Result<Member>)
      modifies this`members
      ensures (Value(), r) == Governance.UpdateMember(old(Value()), tenant, actor, acting, target, role, status)
    {
      if role == None && status == None { return Err(InvalidRequest); }
      if (tenant, actor) !in members || members[(tenant, actor)].status != Working
          || members[(tenant, actor)].role != acting || (acting != Owner && acting != Admin) {
        return Err(Forbidden);
      }
      if (tenant, target) !in members { return Err(NotFound); }
      var member := members[(tenant, target)];
      if acting == Admin && (member.role == Owner || role == Some(Owner)) { return Err(Forbidden); }
      var newRole := if role.Some? then role.value else member.role;
      var newStatus := if status.Some? then status.value else member.status;
      var others := ActiveOwnerCount(tenant, target);
      if member.role == Owner && member.status == Working && (newRole != Owner || newStatus != Working)
          && others == 0 { return Err(InvalidState); }
      members := members[(tenant, target) := Member(newRole, newStatus)];
      return Ok(Member(newRole, newStatus));
    }

    method DeleteMember(tenant: Id, actor: Id, acting: Role, target: Id) returns (r: Result<()>)
      modifies this`members, this`groupMembers
      ensures (Value(), r) == Governance.DeleteMember(old(Value()), tenant, actor, acting, target)
    {
      if !Manages(Value(), tenant, actor, acting) { return Err(Forbidden); }
      if (tenant, target) !in members { return Err(NotFound); }
      var m := members[(tenant, target)];
      if acting == Admin && m.role == Owner { return Err(Forbidden); }
      var others := ActiveOwnerCount(tenant, target);
      if m.role == Owner && m.status == Working && others == 0 { return Err(InvalidState); }
      members := members - {(tenant, target)};
      var before := groupMembers;
      var todo := before;
      while todo != {}
        invariant todo <= before
        invariant members == old(members) - {(tenant, target)}
        invariant groupMembers == set k | k in before && !(k !in todo && k.0 == tenant && k.2 == target)
        decreases todo
      {
        var k :| k in todo;
        todo := todo - {k};
        if k.0 == tenant && k.2 == target { groupMembers := groupMembers - {k}; }
      }
      assert groupMembers == Governance.DeleteMember(old(Value()), tenant, actor, acting, target).0.memberships;
      return Ok(());
    }

    method DeleteGroup(tenant: Id, actor: Id, acting: Role, id: Id) returns (r: Result<()>)
      modifies this`groups, this`groupMembers, this`acls
      ensures (Value(), r) == Governance.DeleteGroup(old(Value()), tenant, actor, acting, id)
    {
      if !Manages(Value(), tenant, actor, acting) { return Err(Forbidden); }
      if id !in groups || groups[id].tenant != tenant { return Err(NotFound); }
      groups := groups - {id};
      DropMemberships(tenant, id);
      DropEntries(tenant, id);
      assert groupMembers == Governance.DeleteGroup(old(Value()), tenant, actor, acting, id).0.memberships;
      assert acls == Governance.DeleteGroup(old(Value()), tenant, actor, acting, id).0.acls;
      return Ok(());
    }

    method UpdateGroup(tenant: Id, actor: Id, acting: Role, id: Id, name: Name) returns (r: Result<Group>)
      modifies this`groups
      ensures (Value(), r) == Governance.UpdateGroup(old(Value()), tenant, actor, acting, id, name)
    {
      if !Manages(Value(), tenant, actor, acting) { return Err(Forbidden); }
      if id !in groups || groups[id].tenant != tenant { return Err(NotFound); }
      var todo := groups.Keys;
      while todo != {}
        invariant todo <= groups.Keys
        invariant forall g :: g in groups && g !in todo ==> !(g != id && groups[g] == Group(tenant, name))
        decreases todo
      {
        var g :| g in todo;
        todo := todo - {g};
        if g != id && groups[g].tenant == tenant && groups[g].name == name { return Err(NameConflict); }
      }
      groups := groups[id := Group(tenant, name)];
      return Ok(Group(tenant, name));
    }

    /** ListInvitations: what it answers is read off the invitations it leaves behind. */
    method ListInvitations(tenant: Id, now: Time) returns (listed: set<Id>)
      modifies this`invitations
      ensures Value() == LapseInvitations(old(Value()), tenant, now)
      ensures listed == set i | i in invitations && invitations[i].tenant == tenant
    {
      listed := {};
      var before := invitations;
      var todo := before.Keys;
      while todo != {}
        invariant todo <= before.Keys && invitations.Keys == before.Keys
        invariant forall i | i in before && i !in todo && Lapses(before[i], tenant, now) ::
                    invitations[i] == before[i].(status := Lapsed)
        invariant forall i | i in before && !(i !in todo && Lapses(before[i], tenant, now)) ::
                invitations[i] == before[i]
        invariant listed == set i | i in before && i !in todo && before[i].tenant == tenant
        decreases todo
      {
        var i :| i in todo;
        todo := todo - {i};
        var v := invitations[i];
        if v.tenant == tenant {
          if v.status == Pending && v.expiresAt <= now { invitations := invitations[i := v.(status := Lapsed)]; }
          listed := listed + {i};
        }
      }
      assert invitations == LapseInvitations(old(Value()), tenant, now).invitations;
    }

    method DropMemberships(tenant: Id, group: Id)
      modifies this`groupMembers
      ensures groupMembers == set k | k in old(groupMembers) && !(k.0 == tenant && k.1 == group)
    {
      var before := groupMembers;
      var todo := before;
      while todo != {}
        invariant todo <= before
        invariant groupMembers == set k | k in before && !(k !in todo && k.0 == tenant && k.1 == group)
        decreases todo
      {
        var k :| k in todo;
        todo := todo - {k};
        if k.0 == tenant && k.1 == group { groupMembers := groupMembers - {k}; }
      }
    }

    method DropEntries(tenant: Id, group: Id)
      modifies this`acls
      ensures acls == map e | e in old(acls)
              && !(old(acls)[e].tenant == tenant && old(acls)[e].subject == OfGroup(group)) :: old(acls)[e]
    {
      var before := acls;
      var todo := before.Keys;
      while todo != {}
        invariant todo <= before.Keys
        invariant acls == map e | e in before
                && !(e !in todo && before[e].tenant == tenant && before[e].subject == OfGroup(group)) :: before[e]
        decreases todo
      {
        var e :| e in todo;
        todo := todo - {e};
        if before[e].tenant == tenant && before[e].subject == OfGroup(group) { acls := acls - {e}; }
      }
    }

    method CreateInvitation(
        id: Id, tenant: Id, actor: Id, acting: Role, identity: Id, role: Role, token: Id, expiresAt: Time, now: Time)
            returns (r: Result<Invitation>)
      modifies this`invitations, this`invitationTokens
      ensures (Value(), r) == Governance.CreateInvitation(old(Value()), id, tenant, actor, acting, identity, role,
              token, expiresAt, now)
    {
      if !Manages(Value(), tenant, actor, acting) { return Err(Forbidden); }
      if expiresAt <= now { return Err(InvalidRequest); }
      if acting == Admin && role == Owner { return Err(Forbidden); }
      var todo := invitations.Keys;
      while todo != {}
        invariant todo <= invitations.Keys
        invariant forall i :: i in invitations && i !in todo ==>
                !(invitations[i].tenant == tenant && invitations[i].identity == identity
                    && invitations[i].status == Pending)
        decreases todo
      {
        var i :| i in todo;
        todo := todo - {i};
        if invitations[i].tenant == tenant && invitations[i].identity == identity
            && invitations[i].status == Pending { return Err(NameConflict); }
      }
      var v := Invitation(tenant, identity, role, Pending, NONE, expiresAt);
      invitations := invitations[id := v];
      invitationTokens := invitationTokens[token := id];
      return Ok(v);
    }

    method AcceptInvitation(token: Id, candidate: Id, identity: Id, now: Time) returns (r: Result<Member>)
      modifies this`principals, this`members, this`invitations
      ensures (Value(), r) == Governance.AcceptInvitation(old(Value()), token, candidate, identity, now)
    {
      if token !in invitationTokens || invitationTokens[token] !in invitations { return Err(NotFound); }
      var id := invitationTokens[token];
      var v := invitations[id];
      if v.identity != identity { return Err(Forbidden); }
      if v.status == Accepted {
        return if (v.tenant, v.acceptedBy) in members then Ok(members[(v.tenant, v.acceptedBy)]) else Err(Internal);
      }
      if v.status != Pending { return Err(InvalidState); }
      if v.expiresAt <= now {
        invitations := invitations[id := v.(status := Lapsed)];
        return Err(InvalidState);
      }
      if identity in principals && principals[identity] != candidate { return Err(NameConflict); }
      principals := principals[identity := candidate];
      var m := Member(v.role, Working);
      if (v.tenant, candidate) in members { m := members[(v.tenant, candidate)]; }
      members := members[(v.tenant, candidate) := m];
      invitations := invitations[id := v.(status := Accepted, acceptedBy := candidate)];
      return Ok(m);
    }

    method CanManageACL(d: Drive, tenant: Id, actor: Id, acting: Role, node: Id) returns (allowed: bool)
      requires Forest(d)
      ensures allowed <==> Access.MayManageAcl(Value(), d, tenant, actor, acting, node)
    {
      if (tenant, actor) !in members || members[(tenant, actor)].status != Working
          || members[(tenant, actor)].role != acting { return false; }
      if acting == Owner || acting == Admin { return true; }
      var r := Access.AuthorizeNode(Value(), d, tenant, actor, node, Access.ManageAcl);
      return r.Ok?;
    }

    method FindEntry(tenant: Id, node: Id, subject: Subject) returns (found: Option<Id>)
      ensures found.Some? <==> HasEntry(Value(), tenant, node, subject)
      ensures found.Some? ==> found.value in acls && SameTarget(acls[found.value], tenant, node, subject)
    {
      var todo := acls.Keys;
      while todo != {}
        invariant todo <= acls.Keys
        invariant forall e :: e in acls && e !in todo ==> !SameTarget(acls[e], tenant, node, subject)
        decreases todo
      {
        var e :| e in todo;
        todo := todo - {e};
        if SameTarget(acls[e], tenant, node, subject) { return Some(e); }
      }
      return None;
    }

    /** Requires of the stored entries what every run keeps: at most one entry per target. */
    method SetNodeACL(
        d: Drive, id: Id, tenant: Id, actor: Id, acting: Role, node: Id, subject: Subject, role: AclRole)
            returns (r: Result<()>)
      requires Forest(d)
      requires OneEntryPerTarget(acls)
      modifies this`acls
      ensures (Value(), r) == Governance.SetNodeACL(old(Value()), d,
              Access.MayManageAcl(old(Value()), d, tenant, actor, acting, node), id, tenant, node, subject, role)
    {
      var may := CanManageACL(d, tenant, actor, acting, node);
      if !may { return Err(Forbidden); }
      if !VisibleIn(d, tenant, node) { return Err(NotFound); }
      if !SubjectExists(Value(), tenant, subject) { return Err(NotFound); }
      var found := FindEntry(tenant, node, subject);
      if found.Some? {
        OnlyEntryChanges(Value(), d, id, tenant, node, subject, role, found.value);
        acls := acls[found.value := acls[found.value].(role := role)];
        return Ok(());
      }
      acls := acls[id := Entry(tenant, node, subject, role)];
      return Ok(());
    }
  }
}
