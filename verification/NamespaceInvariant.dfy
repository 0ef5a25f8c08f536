/**
  Every namespace operation keeps the invariant, hence every run of operations from
  the empty repository does; and what the invariant means for the parent chains.
 */
module NamespaceInvariant {
  import opened Base
  import opened Namespace

  // ------------------------------------------------------------ ancestry facts

  lemma UnderUnfold(nodes: map<Id, Node>, x: Id, a: Id)
    ensures Under(nodes, x, a) <==> x == a || (if x in nodes then Under(nodes, nodes[x].parent, a) else a == NONE)
  {
    assert Climb(nodes, x, 0) == x;
    if k: nat :| Climb(nodes, x, k) == a && k > 0 {
      if x in nodes { assert Climb(nodes, nodes[x].parent, k - 1) == a; }
    }
    if x in nodes {
      if k: nat :| Climb(nodes, nodes[x].parent, k) == a {
        assert Climb(nodes, x, k + 1) == a;
      }
    } else {
      assert Climb(nodes, x, 1) == NONE;
    }
  }

  /** Being under something never raises the rank, so nothing is properly under itself. */
  lemma {:induction false} ClimbLowersRank(nodes: map<Id, Node>, rank: map<Id, nat>, x: Id, k: nat)
    requires Ranks(nodes, rank) && x in nodes && Climb(nodes, x, k) in nodes && NONE !in nodes
    ensures k == 0 || rank[Climb(nodes, x, k)] < rank[x]
    decreases k
  {
    if k > 0 && nodes[x].parent in nodes {
      ClimbLowersRank(nodes, rank, nodes[x].parent, k - 1);
    }
  }

  /** Only directories have other nodes below them. */
  lemma {:induction false} OnlyDirectoriesHaveDescendants(d: Drive, x: Id, k: nat)
    requires Forest(d) && x in d.nodes && k > 0 && Climb(d.nodes, x, k) in d.nodes
    ensures d.nodes[Climb(d.nodes, x, k)].kind == Directory
    decreases k
  {
    assert Placed(d, x);
    if k > 1 && d.nodes[x].parent in d.nodes {
      OnlyDirectoriesHaveDescendants(d, d.nodes[x].parent, k - 1);
    }
  }

  predicate NoDuplicates(s: seq<Id>) {
    forall i, j :: 0 <= i < j < |s| ==> s[i] != s[j]
  }

  lemma {:induction false} DistinctFit(s: seq<Id>, all: set<Id>)
    requires NoDuplicates(s) && forall i :: 0 <= i < |s| ==> s[i] in all
    ensures |s| <= |all|
  {
    if s == [] {
    } else {
      var last := s[|s| - 1];
      DistinctFit(s[..|s| - 1], all - {last});
    }
  }

  /** `chain` lists the nodes met when walking from `id` to the root of its tenant. */
  ghost predicate ChainToRoot(d: Drive, id: Id, chain: seq<Id>) {
    && |chain| > 0 && chain[0] == id && id in d.nodes
    && (forall i :: 0 <= i < |chain| ==> chain[i] in d.nodes && d.nodes[chain[i]].tenant == d.nodes[id].tenant)
    && (forall i :: 0 < i < |chain| ==> d.nodes[chain[i - 1]].parent == chain[i] && d.nodes[chain[i]].kind == Directory)
    && IsTenantRoot(d, d.nodes[id].tenant, chain[|chain| - 1])
  }

  /**
    Every parent chain is finite, stays in its tenant, passes only through directories,
    never repeats a node and ends at the tenant's root.
   */
  lemma {:induction false} ParentChain(d: Drive, id: Id) returns (chain: seq<Id>)
    requires Forest(d) && id in d.nodes
    ensures ChainToRoot(d, id, chain) && NoDuplicates(chain) && |chain| <= |d.nodes|
  {
    var rank :| Ranks(d.nodes, rank);
    chain := RankedChain(d, rank, id);
    DistinctFit(chain, d.nodes.Keys);
  }

  lemma {:induction false} RankedChain(d: Drive, rank: map<Id, nat>, id: Id) returns (chain: seq<Id>)
    requires Forest(d) && Ranks(d.nodes, rank) && id in d.nodes
    ensures ChainToRoot(d, id, chain)
    ensures forall i, j :: 0 <= i < j < |chain| ==> rank[chain[j]] < rank[chain[i]]
    decreases rank[id]
  {
    assert Placed(d, id);
    if IsTenantRoot(d, d.nodes[id].tenant, id) {
      chain := [id];
    } else {
      var up := RankedChain(d, rank, d.nodes[id].parent);
      chain := [id] + up;
    }
  }

  // ------------------------------------------------- each operation, on the forest

  lemma FreshLeafKeepsRanks(nodes: map<Id, Node>, id: Id, n: Node)
    requires Acyclic(nodes) && id !in nodes && NONE !in nodes && n.parent != id
    requires forall x :: x in nodes ==> nodes[x].parent != id
    ensures Acyclic(nodes[id := n])
  {
    var rank :| Ranks(nodes, rank);
    var up := if n.parent in nodes then rank[n.parent] else 0;
    assert Ranks(nodes[id := n], rank[id := up + 1]);
  }

  /** Parents are unchanged, so the tree still has no cycle. */
  lemma SameParentsKeepRanks(before: map<Id, Node>, after: map<Id, Node>)
    requires Acyclic(before) && before.Keys == after.Keys
    requires forall x :: x in before ==> after[x].parent == before[x].parent
    ensures Acyclic(after)
  {
    var rank :| Ranks(before, rank);
    assert Ranks(after, rank);
  }

  lemma NobodyPointsToFresh(d: Drive, id: Id)
    requires Forest(d) && id !in d.nodes && id != NONE
    ensures forall x :: x in d.nodes ==> d.nodes[x].parent != id && d.nodes[x].trashedRoot != id
  {
    forall x | x in d.nodes ensures d.nodes[x].parent != id && d.nodes[x].trashedRoot != id {
      assert Placed(d, x) && Grouped(d, x);
    }
  }

  lemma EnsureTenantKeepsForest(d: Drive, tenant: Id, root: Id, now: Time)
    requires Forest(d) && root !in d.nodes && root != NONE
    ensures Forest(EnsureTenant(d, tenant, root, now))
  {
    if tenant !in d.tenants {
      var e := EnsureTenant(d, tenant, root, now);
      NobodyPointsToFresh(d, root);
      FreshLeafKeepsRanks(d.nodes, root, e.nodes[root]);
      forall id {:trigger Placed(e, id)} | id in e.nodes
          ensures Placed(e, id) { if id != root { assert Placed(d, id); } }
      forall id {:trigger Grouped(e, id)} | id in e.nodes
          ensures Grouped(e, id) { if id != root { assert Grouped(d, id); } }
      forall x | x in d.nodes ensures !SameSlot(e.nodes[x], e.nodes[root]) { assert Placed(d, x); }
    }
  }

  /** The names stay unique when a visible node takes a free name. */
  lemma FreeNameKeepsNames(d: Drive, id: Id, n: Node)
    requires Forest(d) && Visible(n) && !NameTaken(d, n.tenant, n.parent, n.name, id)
    ensures UniqueNames(d.nodes[id := n])
  {
    var after := d.nodes[id := n];
    forall x, y {:trigger SameSlot(after[x], after[y])} | x in after && y in after && SameSlot(after[x], after[y])
        ensures x == y {
      assert x != id ==> Grouped(d, x);
      assert y != id ==> Grouped(d, y);
      if x != id && y != id { assert SameSlot(d.nodes[x], d.nodes[y]); }
    }
  }

  /** A fresh visible node in an open directory under a free name, as CreateDirectory and CommitUpload add it. */
  lemma FreshChildKeepsForest(d: Drive, tenant: Id, id: Id, n: Node)
    requires Forest(d) && id !in d.nodes && id != NONE
    requires OpenDirectory(d, tenant, n.parent) && !NameTaken(d, tenant, n.parent, n.name, NONE)
    requires n.tenant == tenant && Visible(n) && n.originalParent == NONE && n.deletedAt == None
    ensures Forest(d.(nodes := d.nodes[id := n]))
  {
    var e := d.(nodes := d.nodes[id := n]);
    NobodyPointsToFresh(d, id);
    FreshLeafKeepsRanks(d.nodes, id, n);
    FreeNameKeepsNames(d, id, n);
    assert Placed(d, n.parent);
    forall x {:trigger Placed(e, x)} | x in e.nodes ensures Placed(e, x) { if x != id { assert Placed(d, x); } }
    forall x {:trigger Grouped(e, x)} | x in e.nodes ensures Grouped(e, x) { if x != id { assert Grouped(d, x); } }
  }

  /** Moving a subtree: what hangs under the moved node is lifted above its new parent. */
  lemma MoveKeepsRanks(d: Drive, id: Id, target: Id, moved: Node)
    requires Forest(d) && id in d.nodes && target in d.nodes && moved.parent == target
    requires !Under(d.nodes, target, id)
    ensures Acyclic(d.nodes[id := moved])
  {
    var rank :| Ranks(d.nodes, rank);
    var after := d.nodes[id := moved];
    var lifted := map x | x in d.nodes :: if Under(d.nodes, x, id) then rank[x] + rank[target] + 1 else rank[x];
    forall x | x in after && after[x].parent in after ensures lifted[after[x].parent] < lifted[x] {
      UnderUnfold(d.nodes, x, id);
    }
    assert Ranks(after, lifted);
  }

  /** Nothing is moved below itself, not even a file. */
  lemma TargetIsNotUnder(d: Drive, id: Id, target: Id)
    requires Forest(d) && id in d.nodes && target in d.nodes && d.nodes[target].kind == Directory
    requires d.nodes[id].kind == Directory ==> !Under(d.nodes, target, id)
    ensures !Under(d.nodes, target, id)
  {
    if k: nat :| Climb(d.nodes, target, k) == id {
      if k > 0 { OnlyDirectoriesHaveDescendants(d, target, k); }
    }
  }

  ghost predicate MayBecome(d: Drive, id: Id, n: Node) {
    && id in d.nodes && Visible(d.nodes[id]) && !IsTenantRoot(d, n.tenant, id)
    && n.tenant == d.nodes[id].tenant && n.kind == d.nodes[id].kind && Visible(n) && n.originalParent == NONE
         && n.deletedAt == None
    && (n.parent == d.nodes[id].parent || (OpenDirectory(d, n.tenant, n.parent) && !Under(d.nodes, n.parent, id)))
  }

  lemma MovedNode(d: Drive, id: Id, n: Node, x: Id)
    requires Forest(d) && MayBecome(d, id, n) && x in d.nodes
    ensures Placed(d.(nodes := d.nodes[id := n]), x) && Grouped(d.(nodes := d.nodes[id := n]), x)
  {
    assert Placed(d, id) && Grouped(d, id) && Placed(d, x) && Grouped(d, x);
  }

  lemma MoveKeepsForest(d: Drive, id: Id, n: Node)
    requires Forest(d) && MayBecome(d, id, n) && !NameTaken(d, n.tenant, n.parent, n.name, id)
    ensures Forest(d.(nodes := d.nodes[id := n]))
  {
    var e := d.(nodes := d.nodes[id := n]);
    if n.parent == d.nodes[id].parent { SameParentsKeepRanks(d.nodes, e.nodes); }
        else { MoveKeepsRanks(d, id, n.parent, n); }
    FreeNameKeepsNames(d, id, n);
    forall x {:trigger Placed(e, x)} | x in e.nodes ensures Placed(e, x) { MovedNode(d, id, n, x); }
    forall x {:trigger Grouped(e, x)} | x in e.nodes ensures Grouped(e, x) { MovedNode(d, id, n, x); }
  }

  lemma UpdateNodeKeepsForest(
      d: Drive, tenant: Id, id: Id, name: Option<(string, Name)>, parent: Option<Id>, revision: int, now: Time)
    requires Forest(d)
    ensures Forest(UpdateNode(d, tenant, id, name, parent, revision, now).0)
  {
    var (e, r) := UpdateNode(d, tenant, id, name, parent, revision, now);
    if r.Ok? {
      assert Grouped(d, id);
      if parent.Some? { TargetIsNotUnder(d, id, parent.value); }
      MoveKeepsForest(d, id, r.value);
    }
  }

  /** The visible part of a subtree is closed upwards to its root and downwards along visible children. */
  lemma VisibleSubtreeIsClosed(d: Drive, root: Id, x: Id)
    requires Forest(d) && root in d.nodes && Visible(d.nodes[root]) && x in d.nodes
    ensures x in VisibleSubtree(d, root) && x != root ==> d.nodes[x].parent in VisibleSubtree(d, root)
    ensures Visible(d.nodes[x]) && d.nodes[x].parent in VisibleSubtree(d, root) ==> x in VisibleSubtree(d, root)
    ensures root in VisibleSubtree(d, root)
    ensures x in VisibleSubtree(d, root) ==> d.nodes[x].tenant == d.nodes[root].tenant
  {
    UnderUnfold(d.nodes, x, root);
    UnderUnfold(d.nodes, root, root);
    assert Placed(d, x) && Grouped(d, x);
    var p := d.nodes[x].parent;
    if p in d.nodes {
      assert Grouped(d, p);
    } else {
      UnderUnfold(d.nodes, p, root);
    }
    if x in VisibleSubtree(d, root) {
      var k: nat :| Climb(d.nodes, x, k) == root;
      ClimbStaysInTenant(d, x, k);
    }
  }

  lemma {:induction false} ClimbStaysInTenant(d: Drive, x: Id, k: nat)
    requires Forest(d) && x in d.nodes && Climb(d.nodes, x, k) in d.nodes
    ensures d.nodes[Climb(d.nodes, x, k)].tenant == d.nodes[x].tenant
    decreases k
  {
    assert Placed(d, x);
    if k > 0 && d.nodes[x].parent in d.nodes {
      ClimbStaysInTenant(d, d.nodes[x].parent, k - 1);
    }
  }

  lemma Assemble(d: Drive, e: Drive)
    requires Forest(d) && e.tenants == d.tenants && e.nodes.Keys == d.nodes.Keys
    requires forall x :: x in d.nodes ==>
            e.nodes[x].parent == d.nodes[x].parent && e.nodes[x].tenant == d.nodes[x].tenant
    requires forall x {:trigger Placed(e, x)} :: x in e.nodes ==> Placed(e, x)
    requires forall x {:trigger Grouped(e, x)} :: x in e.nodes ==> Grouped(e, x)
    requires UniqueNames(e.nodes)
    ensures Forest(e)
  {
    SameParentsKeepRanks(d.nodes, e.nodes);
  }

  /** What Recycle's effective branch leaves. */
  ghost function Recycled(d: Drive, id: Id, now: Time): Drive {
    d.(nodes := TrashAll(d.nodes, VisibleSubtree(d, id), id, now))
  }

  lemma RecycledNode(d: Drive, id: Id, now: Time, x: Id)
    requires Forest(d) && id in d.nodes && Visible(d.nodes[id]) && !IsTenantRoot(d, d.nodes[id].tenant, id)
    requires x in d.nodes
    ensures Placed(Recycled(d, id, now), x) && Grouped(Recycled(d, id, now), x)
  {
    var e := Recycled(d, id, now);
    VisibleSubtreeIsClosed(d, id, x);
    assert Placed(d, x) && Grouped(d, x) && Placed(d, id);
    var p := d.nodes[x].parent;
    assert p in d.nodes ==> e.nodes[p].tenant == d.nodes[p].tenant && e.nodes[p].kind == d.nodes[p].kind;
    if x !in VisibleSubtree(d, id) && d.nodes[x].trashedRoot in d.nodes {
      assert Grouped(d, d.nodes[x].trashedRoot);
    }
  }

  lemma RecycledNames(d: Drive, id: Id, now: Time, x: Id, y: Id)
    requires Forest(d) && id in d.nodes && Visible(d.nodes[id]) && x in d.nodes && y in d.nodes
    requires SameSlot(Recycled(d, id, now).nodes[x], Recycled(d, id, now).nodes[y])
    ensures x == y
  {
    assert Grouped(d, x) && Grouped(d, y);
    assert SameSlot(d.nodes[x], d.nodes[y]);
  }

  lemma RecycledForest(d: Drive, id: Id, now: Time)
    requires Forest(d) && id in d.nodes && Visible(d.nodes[id]) && !IsTenantRoot(d, d.nodes[id].tenant, id)
    ensures Forest(Recycled(d, id, now))
  {
    var e := Recycled(d, id, now);
    forall x {:trigger Placed(e, x)} | x in e.nodes ensures Placed(e, x) { RecycledNode(d, id, now, x); }
    forall x {:trigger Grouped(e, x)} | x in e.nodes ensures Grouped(e, x) { RecycledNode(d, id, now, x); }
    forall x, y {:trigger SameSlot(e.nodes[x], e.nodes[y])} | x in e.nodes && y in e.nodes
        && SameSlot(e.nodes[x], e.nodes[y]) ensures x == y {
      RecycledNames(d, id, now, x, y);
    }
    Assemble(d, e);
  }

  lemma RecycleKeepsForest(d: Drive, tenant: Id, id: Id, revision: int, now: Time)
    requires Forest(d)
    ensures Forest(Recycle(d, tenant, id, revision, now).0)
  {
    var e := Recycle(d, tenant, id, revision, now).0;
    if e != d {
      assert e == Recycled(d, id, now);
      RecycledForest(d, id, now);
    }
  }

  /** What Restore's effective branch leaves. */
  function Restored(d: Drive, tenant: Id, id: Id, now: Time): Drive {
    d.(nodes := UntrashAll(d.nodes, TrashGroup(d, tenant, id), id, now))
  }

  ghost predicate Restorable(d: Drive, tenant: Id, id: Id) {
    && id in d.nodes && d.nodes[id].tenant == tenant && d.nodes[id].status == Trashed && d.nodes[id].trashedRoot == id
    && OpenDirectory(d, tenant, d.nodes[id].originalParent)
    && !NameTaken(d, tenant, d.nodes[id].originalParent, d.nodes[id].name, id)
  }

  lemma RestoredNode(d: Drive, tenant: Id, id: Id, now: Time, x: Id)
    requires Forest(d) && Restorable(d, tenant, id) && x in d.nodes
    ensures Placed(Restored(d, tenant, id, now), x) && Grouped(Restored(d, tenant, id, now), x)
    ensures Restored(d, tenant, id, now).nodes[x].parent == d.nodes[x].parent
  {
    assert Placed(d, x) && Grouped(d, x) && Grouped(d, id) && Placed(d, id);
    var p := d.nodes[x].parent;
    if p in d.nodes { assert Grouped(d, p); }
  }

  lemma RestoredNames(d: Drive, tenant: Id, id: Id, now: Time, x: Id, y: Id)
    requires Forest(d) && Restorable(d, tenant, id) && x in d.nodes && y in d.nodes
    requires SameSlot(Restored(d, tenant, id, now).nodes[x], Restored(d, tenant, id, now).nodes[y])
    ensures x == y
  {
    var group := TrashGroup(d, tenant, id);
    assert Grouped(d, x) && Grouped(d, y) && Grouped(d, id);
    assert Placed(d, x) && Placed(d, y);
    if (x in group) == (y in group) {
      assert SameSlot(d.nodes[x], d.nodes[y]);
    }
  }

  lemma RestoredForest(d: Drive, tenant: Id, id: Id, now: Time)
    requires Forest(d) && Restorable(d, tenant, id)
    ensures Forest(Restored(d, tenant, id, now))
  {
    var e := Restored(d, tenant, id, now);
    forall x {:trigger Placed(e, x)} | x in e.nodes ensures Placed(e, x) { RestoredNode(d, tenant, id, now, x); }
    forall x {:trigger Grouped(e, x)} | x in e.nodes ensures Grouped(e, x) { RestoredNode(d, tenant, id, now, x); }
    forall x | x in d.nodes ensures e.nodes[x].parent == d.nodes[x].parent { RestoredNode(d, tenant, id, now, x); }
    forall x, y {:trigger SameSlot(e.nodes[x], e.nodes[y])} | x in e.nodes && y in e.nodes
        && SameSlot(e.nodes[x], e.nodes[y]) ensures x == y {
      RestoredNames(d, tenant, id, now, x, y);
    }
    Assemble(d, e);
  }

  lemma RestoreKeepsForest(d: Drive, tenant: Id, id: Id, revision: int, now: Time)
    requires Forest(d)
    ensures Forest(Restore(d, tenant, id, revision, now).0)
  {
    var e := Restore(d, tenant, id, revision, now).0;
    if e != d {
      assert e == Restored(d, tenant, id, now);
      RestoredForest(d, tenant, id, now);
    }
  }

  /** Only statuses change, and only towards Purging inside one whole group or at its root. */
  lemma PurgingKeepsForest(d: Drive, e: Drive, root: Id)
    requires Forest(d) && e.tenants == d.tenants && e.nodes.Keys == d.nodes.Keys
    requires root in d.nodes && d.nodes[root].trashedRoot == root && e.nodes[root].status == Purging
    requires forall x :: x in d.nodes ==>
               e.nodes[x].(updatedAt := d.nodes[x].updatedAt, status := d.nodes[x].status) == d.nodes[x]
               && (e.nodes[x].status == d.nodes[x].status
                    || (d.nodes[x].trashedRoot == root && e.nodes[x].status == Purging))
    ensures Forest(e)
  {
    SameParentsKeepRanks(d.nodes, e.nodes);
    forall x {:trigger Placed(e, x)} | x in e.nodes ensures Placed(e, x) { assert Placed(d, x); }
    forall x {:trigger Grouped(e, x)} | x in e.nodes ensures Grouped(e, x) { assert Grouped(d, x); }
    forall x, y | x in e.nodes && y in e.nodes && SameSlot(e.nodes[x], e.nodes[y]) ensures x == y {
      assert SameSlot(d.nodes[x], d.nodes[y]);
    }
  }

  // ------------------------------------------------------------ files and blobs

  function Level(s: BlobStatus): nat {
    match s case Available => 0 case PendingDelete => 1 case Deleted => 2
  }

  /** Identity fields are permanent, Purging is never left, and a blob only moves towards Deleted. */
  ghost predicate Evolves(d: Drive, e: Drive) {
    && d.nodes.Keys <= e.nodes.Keys && d.versions.Keys <= e.versions.Keys && d.blobs.Keys <= e.blobs.Keys
    && (forall x {:trigger NodeEvolves(d.nodes[x], e.nodes[x])} :: x in d.nodes ==> NodeEvolves(d.nodes[x], e.nodes[x]))
    && (forall v :: v in d.versions ==> e.versions[v] == d.versions[v])
    && (forall b {:trigger BlobEvolves(d.blobs[b], e.blobs[b])} :: b in d.blobs ==> BlobEvolves(d.blobs[b], e.blobs[b]))
  }

  predicate NodeEvolves(m: Node, n: Node) {
    n.tenant == m.tenant && n.kind == m.kind && n.version == m.version && n.size == m.size
        && (m.status == Purging ==> n.status == Purging)
  }

  lemma EvolvesTransitive(d: Drive, e: Drive, f: Drive)
    requires Evolves(d, e) && Evolves(e, f)
    ensures Evolves(d, f)
  {
    forall x {:trigger NodeEvolves(d.nodes[x], f.nodes[x])} | x in d.nodes ensures NodeEvolves(d.nodes[x], f.nodes[x]) {
      assert NodeEvolves(d.nodes[x], e.nodes[x]) && NodeEvolves(e.nodes[x], f.nodes[x]);
    }
    forall b {:trigger BlobEvolves(d.blobs[b], f.blobs[b])} | b in d.blobs ensures BlobEvolves(d.blobs[b], f.blobs[b]) {
      assert BlobEvolves(d.blobs[b], e.blobs[b]) && BlobEvolves(e.blobs[b], f.blobs[b]);
    }
  }

  predicate BlobEvolves(a: Blob, b: Blob) {
    b.tenant == a.tenant && b.key == a.key && b.size == a.size && Level(a.status) <= Level(b.status)
  }

  /** A blob answered by PreparePurge is referred to only from the purged group. */
  lemma PlannedBlobIsUnreferencedOutside(d: Drive, tenant: Id, root: Id, v: Id)
    requires v in d.versions && d.versions[v].blob in PurgeableBlobs(d, tenant, root)
    ensures d.versions[v].node in TrashGroup(d, tenant, root)
  {
  }

  lemma PreparePurgeEvolves(d: Drive, tenant: Id, id: Id, revision: int, now: Time)
    ensures Evolves(d, PreparePurge(d, tenant, id, revision, now).0)
  {
  }

  lemma PreparePurgeKeepsFiles(d: Drive, tenant: Id, id: Id, revision: int, now: Time)
    requires Files(d)
    ensures Files(PreparePurge(d, tenant, id, revision, now).0)
  {
    var e := PreparePurge(d, tenant, id, revision, now).0;
    forall x {:trigger Backed(e, x)} | x in e.nodes ensures Backed(e, x) { assert Backed(d, x); }
    forall v {:trigger Guarded(e, v)} | v in e.versions ensures Guarded(e, v) {
      assert Guarded(d, v);
      if d.versions[v].blob in PurgeableBlobs(d, tenant, id) { PlannedBlobIsUnreferencedOutside(d, tenant, id, v); }
    }
  }

  lemma PreparePurgeKeepsInv(d: Drive, tenant: Id, id: Id, revision: int, now: Time)
    requires Inv(d)
    ensures Inv(PreparePurge(d, tenant, id, revision, now).0)
    ensures Evolves(d, PreparePurge(d, tenant, id, revision, now).0)
  {
    var (e, r) := PreparePurge(d, tenant, id, revision, now);
    PreparePurgeEvolves(d, tenant, id, revision, now);
    PreparePurgeKeepsFiles(d, tenant, id, revision, now);
    if r.Ok? {
      assert Grouped(d, id);
      PurgingKeepsForest(d, e, id);
    }
  }

  lemma FinishPurgeKeepsInv(d: Drive, tenant: Id, root: Id, plan: set<Id>, now: Time)
    requires Inv(d)
    ensures Inv(FinishPurge(d, tenant, root, plan, now).0) && Evolves(d, FinishPurge(d, tenant, root, plan, now).0)
  {
    var e := FinishPurge(d, tenant, root, plan, now).0;
    ForestIgnoresFiles(d, e);
    forall x {:trigger Backed(e, x)} | x in e.nodes ensures Backed(e, x) { assert Backed(d, x); }
    forall v {:trigger Guarded(e, v)} | v in e.versions ensures Guarded(e, v) { assert Guarded(d, v); }
  }

  lemma LeaseForPurgeKeepsInv(d: Drive, id: Id, now: Time)
    requires Inv(d)
    ensures Inv(LeaseForPurge(d, id, now)) && Evolves(d, LeaseForPurge(d, id, now))
  {
    var e := LeaseForPurge(d, id, now);
    if e != d {
      PurgingKeepsForest(d, e, id);
      forall x {:trigger Backed(e, x)} | x in e.nodes ensures Backed(e, x) { assert Backed(d, x); }
      forall v {:trigger Guarded(e, v)} | v in e.versions ensures Guarded(e, v) { assert Guarded(d, v); }
    }
  }

  lemma KeepsFiles(d: Drive, e: Drive)
    requires Files(d) && Evolves(d, e) && e.versions == d.versions && e.blobs == d.blobs
    requires forall x :: x in e.nodes && x !in d.nodes ==> e.nodes[x].kind == Directory
    ensures Files(e)
  {
    forall x {:trigger Backed(e, x)} | x in e.nodes ensures Backed(e, x) {
      if x in d.nodes { assert Backed(d, x) && NodeEvolves(d.nodes[x], e.nodes[x]); }
    }
    forall v {:trigger Guarded(e, v)} | v in e.versions ensures Guarded(e, v) {
      assert Guarded(d, v) && NodeEvolves(d.nodes[d.versions[v].node], e.nodes[d.versions[v].node]);
    }
  }

  lemma EnsureTenantKeepsInv(d: Drive, tenant: Id, root: Id, now: Time)
    requires Inv(d) && root !in d.nodes && root != NONE
    ensures Inv(EnsureTenant(d, tenant, root, now)) && Evolves(d, EnsureTenant(d, tenant, root, now))
  {
    EnsureTenantKeepsForest(d, tenant, root, now);
    KeepsFiles(d, EnsureTenant(d, tenant, root, now));
  }

  lemma CreateDirectoryKeepsInv(d: Drive, tenant: Id, id: Id, parent: Id, display: string, name: Name, now: Time)
    requires Inv(d) && id !in d.nodes && id != NONE
    ensures Inv(CreateDirectory(d, tenant, id, parent, display, name, now).0)
    ensures Evolves(d, CreateDirectory(d, tenant, id, parent, display, name, now).0)
  {
    var (e, r) := CreateDirectory(d, tenant, id, parent, display, name, now);
    if r.Ok? {
      FreshChildKeepsForest(d, tenant, id, r.value);
      KeepsFiles(d, e);
    }
  }

  lemma UpdateNodeEvolves(
      d: Drive, tenant: Id, id: Id, name: Option<(string, Name)>, parent: Option<Id>, revision: int, now: Time)
    ensures Evolves(d, UpdateNode(d, tenant, id, name, parent, revision, now).0)
  {
  }

  lemma UpdateNodeKeepsInv(
      d: Drive, tenant: Id, id: Id, name: Option<(string, Name)>, parent: Option<Id>, revision: int, now: Time)
    requires Inv(d)
    ensures Inv(UpdateNode(d, tenant, id, name, parent, revision, now).0)
    ensures Evolves(d, UpdateNode(d, tenant, id, name, parent, revision, now).0)
  {
    UpdateNodeKeepsForest(d, tenant, id, name, parent, revision, now);
    UpdateNodeEvolves(d, tenant, id, name, parent, revision, now);
    KeepsFiles(d, UpdateNode(d, tenant, id, name, parent, revision, now).0);
  }

  lemma RecycleEvolves(d: Drive, tenant: Id, id: Id, revision: int, now: Time)
    ensures Evolves(d, Recycle(d, tenant, id, revision, now).0)
  {
  }

  lemma RecycleKeepsInv(d: Drive, tenant: Id, id: Id, revision: int, now: Time)
    requires Inv(d)
    ensures Inv(Recycle(d, tenant, id, revision, now).0) && Evolves(d, Recycle(d, tenant, id, revision, now).0)
  {
    RecycleKeepsForest(d, tenant, id, revision, now);
    RecycleEvolves(d, tenant, id, revision, now);
    KeepsFiles(d, Recycle(d, tenant, id, revision, now).0);
  }

  lemma GroupOfTrashedRootIsNotPurging(d: Drive, tenant: Id, id: Id, x: Id)
    requires Forest(d) && id in d.nodes && d.nodes[id].status == Trashed && d.nodes[id].trashedRoot == id
    requires x in TrashGroup(d, tenant, id)
    ensures d.nodes[x].status != Purging
  {
    assert Grouped(d, x);
  }

  lemma RestoreEvolves(d: Drive, tenant: Id, id: Id, revision: int, now: Time)
    requires Forest(d)
    ensures Evolves(d, Restore(d, tenant, id, revision, now).0)
  {
    var e := Restore(d, tenant, id, revision, now).0;
    if e != d {
      forall x | x in d.nodes ensures NodeEvolves(d.nodes[x], e.nodes[x]) {
        if x in TrashGroup(d, tenant, id) { GroupOfTrashedRootIsNotPurging(d, tenant, id, x); }
      }
      assert Evolves(d, e);
    }
  }

  lemma RestoreKeepsInv(d: Drive, tenant: Id, id: Id, revision: int, now: Time)
    requires Inv(d)
    ensures Inv(Restore(d, tenant, id, revision, now).0) && Evolves(d, Restore(d, tenant, id, revision, now).0)
  {
    var e := Restore(d, tenant, id, revision, now).0;
    RestoreKeepsForest(d, tenant, id, revision, now);
    RestoreEvolves(d, tenant, id, revision, now);
    KeepsFiles(d, e);
  }

  lemma ForestIgnoresFiles(d: Drive, e: Drive)
    requires Forest(d) && e.tenants == d.tenants && e.nodes == d.nodes
    ensures Forest(e)
  {
    forall x {:trigger Placed(e, x)} | x in e.nodes ensures Placed(e, x) { assert Placed(d, x); }
    forall x {:trigger Grouped(e, x)} | x in e.nodes ensures Grouped(e, x) { assert Grouped(d, x); }
  }

  lemma AddFileKeepsInv(
      d: Drive, tenant: Id, parent: Id, display: string, name: Name, node: Id, version: Id, blob: Id, key: Id,
          size: nat, now: Time)
    requires Inv(d) && OpenDirectory(d, tenant, parent) && !NameTaken(d, tenant, parent, name, NONE)
    requires node !in d.nodes && node != NONE && version !in d.versions && blob !in d.blobs
    ensures Inv(AddFile(d, tenant, parent, display, name, node, version, blob, key, size, now))
    ensures Evolves(d, AddFile(d, tenant, parent, display, name, node, version, blob, key, size, now))
  {
    var e := AddFile(d, tenant, parent, display, name, node, version, blob, key, size, now);
    FreshChildKeepsForest(d, tenant, node, e.nodes[node]);
    ForestIgnoresFiles(d.(nodes := e.nodes), e);
    forall x {:trigger Backed(e, x)} | x in e.nodes ensures Backed(e, x) {
      if x in d.nodes { assert Backed(d, x); }
    }
    forall v {:trigger Guarded(e, v)} | v in e.versions ensures Guarded(e, v) {
      if v in d.versions { assert Guarded(d, v); }
    }
  }

  /** A visible file can always be downloaded. */
  lemma VisibleFileDownloads(d: Drive, tenant: Id, id: Id)
    requires Inv(d) && VisibleIn(d, tenant, id) && d.nodes[id].kind == File
    ensures Download(d, tenant, id).Ok?
  {
    assert Backed(d, id);
    assert Guarded(d, d.nodes[id].version);
  }
}
