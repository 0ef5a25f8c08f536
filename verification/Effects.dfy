/**
  What the namespace operations are for, in the terms of someone who lists directories: when each
  succeeds, what can be seen afterwards, and that nothing else has changed.
 */
module Effects {
  import opened Base
  import opened Namespace
  import opened NamespaceInvariant
  import opened Paging
  import opened Access

  /** Another visible child of the directory has this name. */
  ghost predicate Occupied(d: Drive, tenant: Id, parent: Id, name: Name, except: Id) {
    exists x :: x != except && IsChild(d, tenant, parent, Key(name, x))
  }

  lemma OccupiedIsTaken(d: Drive, tenant: Id, parent: Id, name: Name, except: Id)
    ensures Occupied(d, tenant, parent, name, except) <==> NameTaken(d, tenant, parent, name, except)
  {
    if x :| x != except && IsChild(d, tenant, parent, Key(name, x)) {
      assert x in d.nodes;
    }
    if NameTaken(d, tenant, parent, name, except) {
      var x :| x in d.nodes && x != except && Visible(d.nodes[x]) && d.nodes[x].tenant == tenant
            && d.nodes[x].parent == parent && d.nodes[x].name == name;
      assert IsChild(d, tenant, parent, Key(name, x));
    }
  }

  /** Nothing but node `id` is different. */
  ghost predicate OnlyNode(d: Drive, e: Drive, id: Id) {
    && e.tenants == d.tenants && e.versions == d.versions && e.blobs == d.blobs
    && e.nodes.Keys == d.nodes.Keys + {id}
    && forall x :: x in d.nodes && x != id ==> e.nodes[x] == d.nodes[x]
  }

  /** The node is listed in this directory under this name, and nowhere else. */
  ghost predicate ListedOnlyIn(d: Drive, tenant: Id, id: Id, parent: Id, name: Name) {
    forall t, p, n :: IsChild(d, t, p, Key(n, id)) <==> t == tenant && p == parent && n == name
  }

  // --------------------------------------------------------------------- directories

  /** A tenant gets one root, open and listed nowhere, and keeps it. */
  lemma TenantGetsARoot(d: Drive, tenant: Id, root: Id, now: Time, other: Id, later: Time)
    requires Forest(d) && root !in d.nodes && root != NONE
    ensures var e := EnsureTenant(d, tenant, root, now);
            && tenant in e.tenants && OpenDirectory(e, tenant, e.tenants[tenant])
            && e.nodes[e.tenants[tenant]].parent == NONE && EnsureTenant(e, tenant, other, later) == e
            && (tenant in d.tenants ==> e == d)
            && (tenant !in d.tenants ==>
                  && e.tenants == d.tenants[tenant := root] && e.versions == d.versions && e.blobs == d.blobs
                  && e.nodes.Keys == d.nodes.Keys + {root} && forall x :: x in d.nodes ==> e.nodes[x] == d.nodes[x])
  {
    if tenant in d.tenants { assert Placed(d, d.tenants[tenant]); }
  }

  lemma CreateDirectorySucceeds(d: Drive, tenant: Id, id: Id, parent: Id, display: string, name: Name, now: Time)
    requires NONE !in d.nodes
    ensures CreateDirectory(d, tenant, id, parent, display, name, now).1.Ok?
       <==> OpenDirectory(d, tenant, parent) && !Occupied(d, tenant, parent, name, NONE)
  {
    OccupiedIsTaken(d, tenant, parent, name, NONE);
  }

  /** The new directory is listed where it was asked for, open and empty, and nothing else has changed. */
  lemma CreatedDirectoryIsListed(d: Drive, tenant: Id, id: Id, parent: Id, display: string, name: Name, now: Time)
    requires Forest(d) && id !in d.nodes && id != NONE
    requires CreateDirectory(d, tenant, id, parent, display, name, now).1.Ok?
    ensures var (e, r) := CreateDirectory(d, tenant, id, parent, display, name, now);
            && OnlyNode(d, e, id) && ListedOnlyIn(e, tenant, id, parent, name) && OpenDirectory(e, tenant, id)
            && e.nodes[id] == r.value && r.value.display == display && r.value.revision == 1
            && forall k :: !IsChild(e, tenant, id, k)
  {
    var e := CreateDirectory(d, tenant, id, parent, display, name, now).0;
    forall k ensures !IsChild(e, tenant, id, k) {
      if k.id in d.nodes { assert Placed(d, k.id); }
    }
  }

  // ---------------------------------------------------------------- rename and move

  function TargetParent(d: Drive, id: Id, parent: Option<Id>): Id
    requires id in d.nodes
  {
    if parent.Some? then parent.value else d.nodes[id].parent
  }

  function TargetName(d: Drive, id: Id, name: Option<(string, Name)>): Name
    requires id in d.nodes
  {
    if name.Some? then name.value.1 else d.nodes[id].name
  }

  /** No directory, and no file for that matter, is above an open directory unless it is a directory itself. */
  lemma FilesAreNotAbove(d: Drive, target: Id, id: Id)
    requires Forest(d) && id in d.nodes && d.nodes[id].kind == File
    requires target in d.nodes && d.nodes[target].kind == Directory
    ensures !Under(d.nodes, target, id)
  {
    if k: nat :| Climb(d.nodes, target, k) == id {
      assert k > 0;
      OnlyDirectoriesHaveDescendants(d, target, k);
    }
  }

  lemma UpdateNodeSucceeds(
    d: Drive, tenant: Id, id: Id, name: Option<(string, Name)>, parent: Option<Id>, revision: int, now: Time)
    requires Forest(d)
    ensures UpdateNode(d, tenant, id, name, parent, revision, now).1.Ok?
       <==> && VisibleIn(d, tenant, id) && !IsTenantRoot(d, tenant, id) && d.nodes[id].revision == revision
            && (parent.Some? ==> OpenDirectory(d, tenant, parent.value) && !Under(d.nodes, parent.value, id))
            && !Occupied(d, tenant, TargetParent(d, id, parent), TargetName(d, id, name), id)
  {
    if VisibleIn(d, tenant, id) {
      OccupiedIsTaken(d, tenant, TargetParent(d, id, parent), TargetName(d, id, name), id);
      if parent.Some? && OpenDirectory(d, tenant, parent.value) && d.nodes[id].kind == File {
        FilesAreNotAbove(d, parent.value, id);
      }
    }
  }

  /** The node is listed where it was sent, under the name it was given, and nothing else has changed. */
  lemma UpdatedNodeIsListed(
    d: Drive, tenant: Id, id: Id, name: Option<(string, Name)>, parent: Option<Id>, revision: int, now: Time)
    requires UpdateNode(d, tenant, id, name, parent, revision, now).1.Ok?
    ensures var (e, r) := UpdateNode(d, tenant, id, name, parent, revision, now);
            && id in d.nodes && OnlyNode(d, e, id)
            && ListedOnlyIn(e, tenant, id, TargetParent(d, id, parent), TargetName(d, id, name))
            && e.nodes[id] == r.value && r.value.revision == revision + 1
            && r.value.display == (if name.Some? then name.value.0 else d.nodes[id].display)
            && r.value.updatedAt == now && r.value.createdAt == d.nodes[id].createdAt
            && r.value.status == d.nodes[id].status && r.value.kind == d.nodes[id].kind
            && r.value.version == d.nodes[id].version && r.value.size == d.nodes[id].size
  {
  }

  lemma {:induction false} BelowStaysBelow(before: map<Id, Node>, after: map<Id, Node>, id: Id, x: Id, k: nat)
    requires before.Keys == after.Keys && forall y :: y in before && y != id ==> after[y].parent == before[y].parent
    requires Climb(before, x, k) == id && id in before && NONE !in before
    ensures Under(after, x, id)
    decreases k
  {
    UnderUnfold(after, x, id);
    if k == 0 {
    } else if x != id && x in before {
      BelowStaysBelow(before, after, id, before[x].parent, k - 1);
    }
  }

  /** Whatever was below the node goes with it, and is now below the directory it was sent to. */
  lemma SubtreeMovesAlong(
    d: Drive, tenant: Id, id: Id, name: Option<(string, Name)>, parent: Option<Id>, revision: int, now: Time, x: Id)
    requires Forest(d) && UpdateNode(d, tenant, id, name, parent, revision, now).1.Ok?
    ensures var e := UpdateNode(d, tenant, id, name, parent, revision, now).0;
            && id in d.nodes && (Under(e.nodes, x, id) <==> Under(d.nodes, x, id))
            && (Under(d.nodes, x, id) ==> Under(e.nodes, x, TargetParent(d, id, parent)))
  {
    var e := UpdateNode(d, tenant, id, name, parent, revision, now).0;
    var target := TargetParent(d, id, parent);
    if k: nat :| Climb(d.nodes, x, k) == id { BelowStaysBelow(d.nodes, e.nodes, id, x, k); }
    if k: nat :| Climb(e.nodes, x, k) == id { BelowStaysBelow(e.nodes, d.nodes, id, x, k); }
    if Under(e.nodes, x, id) {
      UnderUnfold(e.nodes, target, target);
      UnderUnfold(e.nodes, id, target);
      UnderTransitive(e.nodes, x, id, target);
    }
  }

  // ----------------------------------------------------------------- the recycle bin

  lemma RecycleSucceeds(d: Drive, tenant: Id, id: Id, revision: int, now: Time)
    ensures Recycle(d, tenant, id, revision, now).1.Ok?
       <==> && id in d.nodes && d.nodes[id].tenant == tenant && !IsTenantRoot(d, tenant, id)
            && (|| (d.nodes[id].status == Trashed && d.nodes[id].trashedRoot == id)
                || (Visible(d.nodes[id]) && d.nodes[id].revision == revision))
  {
  }

  /** Nothing of a recycled subtree is listed any more; everything else is listed as before. */
  lemma RecycledIsNotListed(d: Drive, tenant: Id, id: Id, revision: int, now: Time, t: Id, p: Id, k: Key)
    requires Forest(d) && VisibleIn(d, tenant, id) && Recycle(d, tenant, id, revision, now).1.Ok?
    ensures var e := Recycle(d, tenant, id, revision, now).0;
            IsChild(e, t, p, k) <==> IsChild(d, t, p, k) && !Under(d.nodes, k.id, id)
  {
    UnderUnfold(d.nodes, id, id);
  }

  lemma RestoreSucceeds(d: Drive, tenant: Id, id: Id, revision: int, now: Time)
    ensures Restore(d, tenant, id, revision, now).1.Ok?
       <==> && id in d.nodes && d.nodes[id].tenant == tenant
            && d.nodes[id].status == Trashed && d.nodes[id].trashedRoot == id
            && d.nodes[id].revision == revision && OpenDirectory(d, tenant, d.nodes[id].originalParent)
            && !Occupied(d, tenant, d.nodes[id].originalParent, d.nodes[id].name, id)
  {
    if id in d.nodes { OccupiedIsTaken(d, tenant, d.nodes[id].originalParent, d.nodes[id].name, id); }
  }

  lemma PreparePurgeSucceeds(d: Drive, tenant: Id, id: Id, revision: int, now: Time)
    ensures PreparePurge(d, tenant, id, revision, now).1.Ok?
       <==> && id in d.nodes && d.nodes[id].tenant == tenant && d.nodes[id].status in {Trashed, Purging}
            && d.nodes[id].trashedRoot == id && d.nodes[id].revision == revision
  {
  }

  /** A purge that has begun can no longer be restored, and its plan covers every file of the group nobody shares. */
  lemma PurgedIsGone(d: Drive, tenant: Id, id: Id, revision: int, now: Time, x: Id, later: int, at: Time)
    requires Namespace.Inv(d) && PreparePurge(d, tenant, id, revision, now).1.Ok? && x in TrashGroup(d, tenant, id)
    ensures var (e, plan) := PreparePurge(d, tenant, id, revision, now);
            && x in e.nodes && e.nodes[x].status == Purging && !Restore(e, tenant, x, later, at).1.Ok?
            && (d.nodes[x].kind == File ==>
                  && d.nodes[x].version in d.versions && d.versions[d.nodes[x].version].blob in d.blobs
                  && (d.blobs[d.versions[d.nodes[x].version].blob].status == Deleted
                      || d.versions[d.nodes[x].version].blob in plan.value
                      || exists w :: w in d.versions && w != d.nodes[x].version
                                  && d.versions[w].blob == d.versions[d.nodes[x].version].blob))
  {
    if d.nodes[x].kind == File {
      var v := d.nodes[x].version;
      assert Backed(d, x) && Guarded(d, v);
      if forall w :: w in d.versions && w != v ==> d.versions[w].blob != d.versions[v].blob {
        assert d.blobs[d.versions[v].blob].status != Deleted ==> d.versions[v].blob in PurgeableBlobs(d, tenant, id);
      }
    }
  }
}
