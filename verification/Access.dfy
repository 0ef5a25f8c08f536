/**
  Node authorization: the early-exit ancestor walk of the memory repository against the
  relational form (highest of the role's level and every matching grant on an ancestor).
 */
module Access {
  import opened Base
  import opened Namespace
  import opened NamespaceInvariant
  import opened Governance

  datatype Capability = Read | Write | Delete | ManageAcl

  function Needed(c: Capability): nat {
    match c
    case Read => 1
    case Write => 2
    case Delete => 3
    case ManageAcl => 3
  }

  function RoleLevel(r: Role): nat {
    match r
    case Owner => 3
    case Admin => 3
    case Editor => 2
    case Viewer => 1
  }

  function GrantLevel(r: AclRole): nat {
    match r
    case Reader => 1
    case Contributor => 2
    case Manager => 3
  }

  /** Does this entry speak about the principal, directly or through a group? */
  predicate Applies(s: State, e: Entry, tenant: Id, principal: Id) {
    e.tenant == tenant && match e.subject
                          case Principal(p) => p == principal
                          case OfGroup(g) => (tenant, g, principal) in s.memberships
  }

  // ------------------------------------------------------------------ the relational form

  /** The levels granted on ancestors of the node, the node included. */
  ghost function GrantedLevels(s: State, d: Drive, tenant: Id, principal: Id, node: Id): set<nat> {
    set e | e in s.acls && s.acls[e].node in d.nodes && d.nodes[s.acls[e].node].tenant == tenant
         && Under(d.nodes, node, s.acls[e].node) && Applies(s, s.acls[e], tenant, principal) ::
              GrantLevel(s.acls[e].role)
  }

  /** The maximum of a set of levels, 0 if it is empty. */
  function Highest(levels: set<nat>): nat {
    if 3 in levels then 3 else if 2 in levels then 2 else if 1 in levels then 1 else 0
  }

  ghost function EffectiveLevel(s: State, d: Drive, tenant: Id, principal: Id, node: Id): nat
    requires (tenant, principal) in s.members
  {
    Highest(GrantedLevels(s, d, tenant, principal, node) + {RoleLevel(s.members[(tenant, principal)].role)})
  }

  predicate IsActive(s: State, tenant: Id, principal: Id) {
    (tenant, principal) in s.members && s.members[(tenant, principal)].status == Working
  }

  predicate NodeExists(d: Drive, tenant: Id, node: Id) {
    node in d.nodes && d.nodes[node].tenant == tenant
  }

  ghost predicate Authorized(s: State, d: Drive, tenant: Id, principal: Id, node: Id, c: Capability) {
    NodeExists(d, tenant, node) && IsActive(s, tenant, principal)
        && EffectiveLevel(s, d, tenant, principal, node) >= Needed(c)
  }

  /** The answer of the relational form, which looks at the member before the node. */
  ghost function AuthorizeByQuery(s: State, d: Drive, tenant: Id, principal: Id, node: Id, c: Capability): Result<()> {
    if !IsActive(s, tenant, principal) then Err(Forbidden)
    else if !NodeExists(d, tenant, node) then Err(NotFound)
    else if EffectiveLevel(s, d, tenant, principal, node) >= Needed(c) then Ok(())
    else Err(Forbidden)
  }

  lemma HighestIsMaximum(s: State, d: Drive, tenant: Id, principal: Id, node: Id)
    requires (tenant, principal) in s.members
    ensures var levels := GrantedLevels(s, d, tenant, principal,
            node) + {RoleLevel(s.members[(tenant, principal)].role)};
            Highest(levels) in levels && forall l :: l in levels ==> l <= Highest(levels)
  {
  }

  // ----------------------------------------------------------------------- the walk

  /** A grant on exactly this node that reaches the needed level. */
  ghost predicate GrantedAt(s: State, tenant: Id, principal: Id, node: Id, needed: nat) {
    exists e :: e in s.acls && s.acls[e].node == node && Applies(s, s.acls[e], tenant, principal)
        && GrantLevel(s.acls[e].role) >= needed
  }

  method AnyGrantAt(s: State, tenant: Id, principal: Id, node: Id, needed: nat) returns (found: bool)
    ensures found <==> GrantedAt(s, tenant, principal, node, needed)
  {
    var todo := s.acls.Keys;
    while todo != {}
      invariant todo <= s.acls.Keys
      invariant forall e :: e in s.acls && e !in todo ==>
              !(s.acls[e].node == node && Applies(s, s.acls[e], tenant, principal)
                  && GrantLevel(s.acls[e].role) >= needed)
      decreases todo
    {
      var e :| e in todo;
      todo := todo - {e};
      var a := s.acls[e];
      if a.tenant == tenant && a.node == node && (a.subject == Principal(principal) || a.subject.OfGroup?) {
        if a.subject.OfGroup? && (tenant, a.subject.group, principal) !in s.memberships { continue; }
        if GrantLevel(a.role) >= needed { return true; }
      }
    }
    return false;
  }

  /** What is left of the walk once `cur` is reached. */
  ghost predicate GrantedAbove(s: State, d: Drive, tenant: Id, principal: Id, cur: Id, needed: nat) {
    exists a :: a in d.nodes && Under(d.nodes, cur, a) && GrantedAt(s, tenant, principal, a, needed)
  }

  lemma WalkStep(s: State, d: Drive, tenant: Id, principal: Id, cur: Id, needed: nat)
    requires Forest(d) && cur in d.nodes
    ensures GrantedAbove(s, d, tenant, principal, cur, needed)
       <==> (|| GrantedAt(s, tenant, principal, cur, needed)
             || GrantedAbove(s, d, tenant, principal, d.nodes[cur].parent, needed))
  {
    UnderUnfold(d.nodes, cur, cur);
    if a :| a in d.nodes && Under(d.nodes, cur, a) && GrantedAt(s, tenant, principal, a, needed) {
      UnderUnfold(d.nodes, cur, a);
    }
    if a :| a in d.nodes && Under(d.nodes, d.nodes[cur].parent, a) && GrantedAt(s, tenant, principal, a, needed) {
      UnderUnfold(d.nodes, cur, a);
    }
  }

  lemma NothingAboveRoot(s: State, d: Drive, tenant: Id, principal: Id, needed: nat)
    requires Forest(d)
    ensures !GrantedAbove(s, d, tenant, principal, NONE, needed)
  {
    forall a | a in d.nodes ensures !Under(d.nodes, NONE, a) { UnderUnfold(d.nodes, NONE, a); }
  }

  /** The walk's question and the relational maximum are the same question. */
  lemma GrantedAboveIsHighest(s: State, d: Drive, tenant: Id, principal: Id, node: Id, needed: nat)
    requires Forest(d) && NodeExists(d, tenant, node) && 1 <= needed <= 3
    ensures GrantedAbove(s, d, tenant, principal, node, needed) <==>
            Highest(GrantedLevels(s, d, tenant, principal, node)) >= needed
  {
    var levels := GrantedLevels(s, d, tenant, principal, node);
    if GrantedAbove(s, d, tenant, principal, node, needed) {
      var a :| a in d.nodes && Under(d.nodes, node, a) && GrantedAt(s, tenant, principal, a, needed);
      var e :| e in s.acls && s.acls[e].node == a && Applies(s, s.acls[e], tenant, principal)
          && GrantLevel(s.acls[e].role) >= needed;
      var k: nat :| Climb(d.nodes, node, k) == a;
      ClimbStaysInTenant(d, node, k);
      assert GrantLevel(s.acls[e].role) in levels;
    }
    if Highest(levels) >= needed {
      var e :| e in s.acls && s.acls[e].node in d.nodes && Under(d.nodes, node, s.acls[e].node)
          && Applies(s, s.acls[e], tenant, principal)
            && GrantLevel(s.acls[e].role) == Highest(levels);
      assert GrantedAt(s, tenant, principal, s.acls[e].node, needed);
    }
  }

  /** The walk answers as the relational form does, except that it reports a missing node before a missing member. */
  method AuthorizeNode(s: State, d: Drive, tenant: Id, principal: Id, node: Id, c: Capability) returns (r: Result<()>)
    requires Forest(d)
    ensures r.Ok? <==> Authorized(s, d, tenant, principal, node, c)
    ensures r == if NodeExists(d, tenant, node) then AuthorizeByQuery(s, d, tenant, principal, node, c)
            else Err(NotFound)
    ensures r == AuthorizeByQuery(s, d, tenant, principal, node, c) <==>
            NodeExists(d, tenant, node) || IsActive(s, tenant, principal)
  {
    if node !in d.nodes || d.nodes[node].tenant != tenant { return Err(NotFound); }
    if (tenant, principal) !in s.members || s.members[(tenant, principal)].status != Working { return Err(Forbidden); }
    var role := s.members[(tenant, principal)].role;
    var needed := Needed(c);
    GrantedAboveIsHighest(s, d, tenant, principal, node, needed);
    if role == Owner || role == Admin { return Ok(()); }
    if (role == Editor && needed <= 2) || (role == Viewer && needed <= 1) { return Ok(()); }
    ghost var rank :| Ranks(d.nodes, rank);
    var cur := node;
    while cur != NONE
      invariant cur in d.nodes || cur == NONE
      invariant GrantedAbove(s, d, tenant, principal, node, needed) <==>
              GrantedAbove(s, d, tenant, principal, cur, needed)
      decreases if cur in d.nodes then rank[cur] + 1 else 0
    {
      WalkStep(s, d, tenant, principal, cur, needed);
      assert Placed(d, cur);
      var found := AnyGrantAt(s, tenant, principal, cur, needed);
      if found { return Ok(()); }
      cur := d.nodes[cur].parent;
    }
    NothingAboveRoot(s, d, tenant, principal, needed);
    return Err(Forbidden);
  }

  /** canManageACL: owners and admins everywhere, anyone else where they hold the capability. */
  ghost predicate MayManageAcl(s: State, d: Drive, tenant: Id, actor: Id, acting: Role, node: Id) {
    && (tenant, actor) in s.members && s.members[(tenant, actor)] == Member(acting, Working)
    && (acting == Owner || acting == Admin || Authorized(s, d, tenant, actor, node, ManageAcl))
  }

  // -------------------------------------------------------------------- consequences

  lemma UnderTransitive(nodes: map<Id, Node>, x: Id, y: Id, a: Id)
    requires NONE !in nodes && Under(nodes, x, y) && Under(nodes, y, a)
    ensures Under(nodes, x, a)
  {
    var j: nat :| Climb(nodes, x, j) == y;
    ClimbOn(nodes, x, j, a);
  }

  lemma {:induction false} ClimbOn(nodes: map<Id, Node>, x: Id, j: nat, a: Id)
    requires NONE !in nodes && Under(nodes, Climb(nodes, x, j), a)
    ensures Under(nodes, x, a)
    decreases j
  {
    UnderUnfold(nodes, x, a);
    if j > 0 {
      if x in nodes { ClimbOn(nodes, nodes[x].parent, j - 1, a); } else { UnderUnfold(nodes, NONE, a); }
    }
  }

  /** Whatever is allowed on a node is allowed on everything below it. */
  lemma AccessIsInherited(s: State, d: Drive, tenant: Id, principal: Id, above: Id, below: Id, c: Capability)
    requires Forest(d) && NodeExists(d, tenant, below) && Under(d.nodes, below, above)
    requires Authorized(s, d, tenant, principal, above, c)
    ensures Authorized(s, d, tenant, principal, below, c)
  {
    var high, low := GrantedLevels(s, d, tenant, principal, above), GrantedLevels(s, d, tenant, principal, below);
    forall l | l in high ensures l in low {
      var e :| e in s.acls && s.acls[e].node in d.nodes && d.nodes[s.acls[e].node].tenant == tenant
            && Under(d.nodes, above, s.acls[e].node) && Applies(s, s.acls[e], tenant, principal)
                 && l == GrantLevel(s.acls[e].role);
      UnderTransitive(d.nodes, below, above, s.acls[e].node);
    }
  }

  /** A capability brings every capability of the same or a lower level. */
  lemma AccessIsMonotone(s: State, d: Drive, tenant: Id, principal: Id, node: Id, strong: Capability, weak: Capability)
    requires Needed(weak) <= Needed(strong) && Authorized(s, d, tenant, principal, node, strong)
    ensures Authorized(s, d, tenant, principal, node, weak)
  {
  }

  lemma {:induction false} SameParentsSameClimb(before: map<Id, Node>, after: map<Id, Node>, x: Id, k: nat)
    requires before.Keys == after.Keys && forall id :: id in before ==> after[id].parent == before[id].parent
    ensures Climb(before, x, k) == Climb(after, x, k)
    decreases k
  {
    if k > 0 && x in before { SameParentsSameClimb(before, after, before[x].parent, k - 1); }
  }

  lemma SameParentsSameUnder(before: map<Id, Node>, after: map<Id, Node>, x: Id, a: Id)
    requires before.Keys == after.Keys && forall id :: id in before ==> after[id].parent == before[id].parent
    ensures Under(before, x, a) <==> Under(after, x, a)
  {
    if k: nat :| Climb(before, x, k) == a { SameParentsSameClimb(before, after, x, k); }
    if k: nat :| Climb(after, x, k) == a { SameParentsSameClimb(before, after, x, k); }
  }

  lemma SameParentsSameAccess(s: State, d: Drive, e: Drive, tenant: Id, principal: Id, node: Id, c: Capability)
    requires d.nodes.Keys == e.nodes.Keys && forall id :: id in d.nodes ==>
            e.nodes[id].parent == d.nodes[id].parent && e.nodes[id].tenant == d.nodes[id].tenant
    ensures Authorized(s, e, tenant, principal, node, c) <==> Authorized(s, d, tenant, principal, node, c)
  {
    forall a {:trigger Under(d.nodes, node, a)} {:trigger Under(e.nodes, node, a)} ensures Under(d.nodes, node, a) <==>
        Under(e.nodes, node, a) {
      SameParentsSameUnder(d.nodes, e.nodes, node, a);
    }
    assert GrantedLevels(s, d, tenant, principal, node) == GrantedLevels(s, e, tenant, principal, node);
  }

  /** Recycling a subtree changes nobody's access to any node. */
  lemma RecycleKeepsAccess(
      s: State, d: Drive, owner: Id, root: Id, revision: int, now: Time, tenant: Id, principal: Id, node: Id,
          c: Capability)
    ensures Authorized(s, Recycle(d, owner, root, revision, now).0, tenant, principal, node, c) <==>
            Authorized(s, d, tenant, principal, node, c)
  {
    SameParentsSameAccess(s, d, Recycle(d, owner, root, revision, now).0, tenant, principal, node, c);
  }
}
