/**
  The in-memory repository: maps changed in place under one lock. Every method is proved
  against the value-level operation of the same name.
 */
module MemoryRepository {
  import opened Base
  import opened Namespace
  import opened NamespaceInvariant
  import opened Storage
  import Uploads
  import opened Walks
  import Leases
  import Sorting

  ghost predicate BlobInGroup(versions: map<Id, Version>, tenant: Id, group: seq<Id>, b: Id) {
    exists v :: v in versions && versions[v].tenant == tenant && versions[v].node in group && versions[v].blob == b
  }

  /** Under the invariant every version's blob exists. */
  lemma KnownBlobs(d: Drive, tenant: Id, group: seq<Id>, found: set<Id>)
    requires Namespace.Inv(d)
    requires forall b :: b in found <==> BlobInGroup(d.versions, tenant, group, b)
    ensures found <= d.blobs.Keys
  {
    forall b | b in found ensures b in d.blobs {
      var v :| v in d.versions && d.versions[v].blob == b;
      assert Guarded(d, v);
    }
  }

  lemma PlanIsPurgeable(d: Drive, tenant: Id, root: Id, group: seq<Id>, found: set<Id>, plan: set<Id>)
    requires forall x :: x in group <==> x in TrashGroup(d, tenant, root)
    requires found <= d.blobs.Keys
    requires forall b :: b in found <==> BlobInGroup(d.versions, tenant, group, b)
    requires plan == set b | b in found && d.blobs[b].status != Deleted && !exists w ::
            w in d.versions && d.versions[w].blob == b && d.versions[w].node !in group
    ensures plan == PurgeableBlobs(d, tenant, root)
  {
    forall b | b in plan ensures b in PurgeableBlobs(d, tenant, root) {
      var v :| v in d.versions && d.versions[v].tenant == tenant && d.versions[v].node in group
          && d.versions[v].blob == b;
    }
  }

  class Repository {
    var tenants: map<Id, Id>
    var nodes: map<Id, Node>
    var versions: map<Id, Version>
    var blobs: map<Id, Blob>
    var uploads: map<Id, Uploads.Session>
    var parts: map<Id, seq<Part>>
    var uploadMaintenance: Leases.Table
    var recycleMaintenance: Leases.Table

    function Tree(): Drive
      reads this`tenants, this`nodes, this`versions, this`blobs
    {
      Drive(tenants, nodes, versions, blobs)
    }

    function Value(): Uploads.Repo
      reads this
    {
      Uploads.Repo(Tree(), uploads, parts)
    }

    /** Only terminal sessions are marked for cleanup. */
    ghost predicate CleanupOk()
      reads this`uploads, this`uploadMaintenance
    {
      forall u :: u in uploadMaintenance && uploadMaintenance[u].cleanupPending ==>
          u in uploads && Uploads.Terminal(uploads[u].status)
    }

    constructor ()
      ensures CleanupOk()
      ensures Value() == Uploads.Repo(EMPTY, map[], map[]) && uploadMaintenance == map[] && recycleMaintenance == map[]
    {
      tenants, nodes, versions, blobs := map[], map[], map[], map[];
      uploads, parts, uploadMaintenance, recycleMaintenance := map[], map[], map[], map[];
    }

    // -------------------------------------------------------------------- namespace

    method EnsureTenant(tenant: Id, root: Id, now: Time)
      modifies this`tenants, this`nodes
      ensures Tree() == Namespace.EnsureTenant(old(Tree()), tenant, root, now)
    {
      if tenant in tenants { return; }
      tenants := tenants[tenant := root];
      nodes := nodes[root := Node(tenant, NONE, Directory, "", 0, NONE, 0, Active, NONE, NONE, 1, now, now, None)];
    }

    method CreateDirectory(tenant: Id, id: Id, parent: Id, display: string, name: Name, now: Time)
      returns (r: Result<Node>)
      modifies this`nodes
      ensures (Tree(), r) == Namespace.CreateDirectory(old(Tree()), tenant, id, parent, display, name, now)
    {
      if !OpenDirectory(Tree(), tenant, parent) { return Err(NotFound); }
      var taken := NameExists(Tree(), tenant, parent, name, NONE);
      if taken { return Err(NameConflict); }
      var node := Node(tenant, parent, Directory, display, name, NONE, 0, Active, NONE, NONE, 1, now, now, None);
      nodes := nodes[id := node];
      return Ok(node);
    }

    method UpdateNode(tenant: Id, id: Id, name: Option<(string, Name)>, parent: Option<Id>, revision: int, now: Time)
      returns (r: Result<Node>)
      requires Forest(Tree())
      modifies this`nodes
      ensures (Tree(), r) == Namespace.UpdateNode(old(Tree()), tenant, id, name, parent, revision, now)
    {
      if !VisibleIn(Tree(), tenant, id) { return Err(NotFound); }
      if tenant in tenants && tenants[tenant] == id { return Err(InvalidRequest); }
      var node := nodes[id];
      if node.revision != revision { return Err(RevisionMismatch); }
      var targetParent := node.parent;
      if parent.Some? {
        targetParent := parent.value;
        if !OpenDirectory(Tree(), tenant, targetParent) { return Err(NotFound); }
        if node.kind == Directory {
          var below := IsDescendant(Tree(), targetParent, id, tenant);
          UnderUnfold(nodes, targetParent, id);
          if below { return Err(InvalidRequest); }
        }
      }
      var targetName := if name.Some? then name.value.1 else node.name;
      var taken := NameExists(Tree(), tenant, targetParent, targetName, id);
      if taken { return Err(NameConflict); }
      if name.Some? { node := node.(display := name.value.0, name := name.value.1); }
      if parent.Some? { node := node.(parent := parent.value); }
      node := node.(revision := node.revision + 1, updatedAt := now);
      nodes := nodes[id := node];
      return Ok(node);
    }

    method Recycle(tenant: Id, id: Id, revision: int, now: Time) returns (r: Result<()>)
      requires Forest(Tree())
      modifies this`nodes
      ensures (Tree(), r) == Namespace.Recycle(old(Tree()), tenant, id, revision, now)
    {
      if id !in nodes || nodes[id].tenant != tenant { return Err(NotFound); }
      if tenant in tenants && tenants[tenant] == id { return Err(InvalidRequest); }
      var node := nodes[id];
      if node.status == Trashed && node.trashedRoot == id { return Ok(()); }
      if !Visible(node) { return Err(NotFound); }
      if node.revision != revision { return Err(RevisionMismatch); }
      var ids := ActiveSubtree(Tree(), id, tenant);
      TrashEach(ids, id, now, VisibleSubtree(Tree(), id));
      return Ok(());
    }

    method TrashEach(ids: seq<Id>, root: Id, now: Time, ghost group: set<Id>)
      requires NoDuplicates(ids) && group <= nodes.Keys && forall x :: x in ids <==> x in group
      modifies this`nodes
      ensures nodes == TrashAll(old(nodes), group, root, now)
    {
      for k := 0 to |ids|
        invariant nodes.Keys == old(nodes).Keys
        invariant forall x :: x in nodes ==>
                nodes[x] == if x in ids[..k] then Trash(old(nodes)[x], x == root, root, now) else old(nodes)[x]
      {
        assert ids[..k + 1] == ids[..k] + [ids[k]] && ids[k] in ids;
        var child := nodes[ids[k]];
        var changed := child.(trashedRoot := root, updatedAt := now);
        if ids[k] == root {
          changed := changed.(status := Trashed, originalParent := child.parent, revision := child.revision + 1,
              deletedAt := Some(now));
        }
        nodes := nodes[ids[k] := changed];
      }
      assert ids[..|ids|] == ids;
    }

    method Restore(tenant: Id, id: Id, revision: int, now: Time) returns (r: Result<Node>)
      modifies this`nodes
      ensures (Tree(), r) == Namespace.Restore(old(Tree()), tenant, id, revision, now)
    {
      if id !in nodes || nodes[id].tenant != tenant || nodes[id].status != Trashed
          || nodes[id].trashedRoot != id { return Err(NotFound); }
      var node := nodes[id];
      if node.revision != revision { return Err(RevisionMismatch); }
      var taken := NameExists(Tree(), tenant, node.originalParent, node.name, id);
      if !OpenDirectory(Tree(), tenant, node.originalParent) || taken { return Err(RestoreConflict); }
      var ids := TrashedSubtree(Tree(), id, tenant);
      UntrashEach(ids, id, now, TrashGroup(Tree(), tenant, id));
      return Ok(nodes[id]);
    }

    method UntrashEach(ids: seq<Id>, root: Id, now: Time, ghost group: set<Id>)
      requires NoDuplicates(ids) && group <= nodes.Keys && forall x :: x in ids <==> x in group
      modifies this`nodes
      ensures nodes == UntrashAll(old(nodes), group, root, now)
    {
      for k := 0 to |ids|
        invariant nodes.Keys == old(nodes).Keys
        invariant forall x :: x in nodes ==>
                nodes[x] == if x in ids[..k] then Untrash(old(nodes)[x], x == root, now) else old(nodes)[x]
      {
        assert ids[..k + 1] == ids[..k] + [ids[k]] && ids[k] in ids;
        var child := nodes[ids[k]];
        var changed := child.(trashedRoot := NONE, updatedAt := now);
        if ids[k] == root {
          changed := changed.(status := Active, parent := child.originalParent, originalParent := NONE,
              deletedAt := None, revision := child.revision + 1);
        }
        nodes := nodes[ids[k] := changed];
      }
      assert ids[..|ids|] == ids;
    }

    // ------------------------------------------------------------------------ purge

    /** Is a blob referred to by a version of a node outside the group? */
    method ReferencedOutside(blob: Id, group: seq<Id>) returns (outside: bool)
      ensures outside <==> exists w :: w in versions && versions[w].blob == blob && versions[w].node !in group
    {
      var todo := versions.Keys;
      while todo != {}
        invariant todo <= versions.Keys
        invariant forall w :: w in versions && w !in todo ==> !(versions[w].blob == blob && versions[w].node !in group)
        decreases todo
      {
        var w :| w in todo;
        todo := todo - {w};
        if versions[w].blob == blob && versions[w].node !in group { return true; }
      }
      return false;
    }

    /** The blobs of the group's versions. */
    method BlobsOf(tenant: Id, group: seq<Id>) returns (found: set<Id>)
      ensures forall b :: b in found <==> BlobInGroup(versions, tenant, group, b)
    {
      found := {};
      var todo := versions.Keys;
      while todo != {}
        invariant todo <= versions.Keys
        invariant forall v ::
                v in versions && v !in todo && versions[v].tenant == tenant && versions[v].node in group ==>
                    versions[v].blob in found
        invariant forall b :: b in found ==> BlobInGroup(versions, tenant, group, b)
        decreases todo
      {
        var v :| v in todo;
        todo := todo - {v};
        var version := versions[v];
        if version.tenant == tenant && version.node in group { found := found + {version.blob}; }
      }
    }

    method PreparePurge(tenant: Id, id: Id, revision: int, now: Time) returns (r: Result<set<Id>>)
      requires Namespace.Inv(Tree())
      modifies this`nodes, this`blobs
      ensures (Tree(), r) == Namespace.PreparePurge(old(Tree()), tenant, id, revision, now)
    {
      if id !in nodes || nodes[id].tenant != tenant || (nodes[id].status != Trashed && nodes[id].status != Purging)
          || nodes[id].trashedRoot != id { return Err(NotFound); }
      if nodes[id].revision != revision { return Err(RevisionMismatch); }
      var subtree := TrashedSubtree(Tree(), id, tenant);
      PurgeEach(subtree, now, TrashGroup(Tree(), tenant, id));
      var candidates := BlobsOf(tenant, subtree);
      KnownBlobs(old(Tree()), tenant, subtree, candidates);
      var plan := MarkPending(candidates, subtree);
      PlanIsPurgeable(old(Tree()), tenant, id, subtree, candidates, plan);
      assert nodes == Namespace.PreparePurge(old(Tree()), tenant, id, revision, now).0.nodes;
      assert blobs == Namespace.PreparePurge(old(Tree()), tenant, id, revision, now).0.blobs;
      return Ok(plan);
    }

    method PurgeEach(ids: seq<Id>, now: Time, ghost group: set<Id>)
      requires NoDuplicates(ids) && group <= nodes.Keys && forall x :: x in ids <==> x in group
      modifies this`nodes
      ensures nodes == map x | x in old(nodes) ::
              if x in group then old(nodes)[x].(status := Purging, updatedAt := now) else old(nodes)[x]
    {
      for k := 0 to |ids|
        invariant nodes.Keys == old(nodes).Keys
        invariant forall x :: x in nodes ==>
                nodes[x] == if x in ids[..k] then old(nodes)[x].(status := Purging, updatedAt := now) else old(nodes)[x]
      {
        assert ids[..k + 1] == ids[..k] + [ids[k]] && ids[k] in ids;
        nodes := nodes[ids[k] := nodes[ids[k]].(status := Purging, updatedAt := now)];
      }
      assert ids[..|ids|] == ids;
    }

    /** Marks the candidates that nothing outside the group refers to and that are not deleted yet. */
    method MarkPending(candidates: set<Id>, group: seq<Id>) returns (plan: set<Id>)
      requires candidates <= blobs.Keys
      modifies this`blobs
      ensures plan == set b | b in candidates && old(blobs)[b].status != Deleted && !exists w ::
              w in versions && versions[w].blob == b && versions[w].node !in group
      ensures blobs == map b | b in old(blobs) ::
              if b in plan then old(blobs)[b].(status := PendingDelete, references := 0) else old(blobs)[b]
    {
      plan := {};
      var todo := candidates;
      while todo != {}
        invariant todo <= candidates
        invariant plan == set b | b in candidates && b !in todo && old(blobs)[b].status != Deleted && !exists w ::
                w in versions && versions[w].blob == b && versions[w].node !in group
        invariant blobs == map b | b in old(blobs) ::
                if b in plan then old(blobs)[b].(status := PendingDelete, references := 0) else old(blobs)[b]
        decreases todo
      {
        var b :| b in todo;
        todo := todo - {b};
        var outside := ReferencedOutside(b, group);
        if !outside && blobs[b].status != Deleted {
          blobs := blobs[b := blobs[b].(status := PendingDelete, references := 0)];
          plan := plan + {b};
        }
      }
    }

    method FinishPurge(tenant: Id, root: Id, plan: set<Id>, now: Time) returns (r: Result<()>)
      modifies this`blobs, this`recycleMaintenance
      ensures (Tree(), r) == Namespace.FinishPurge(old(Tree()), tenant, root, plan, now)
      ensures recycleMaintenance == if r.Ok? then Leases.Apply(old(recycleMaintenance), Leases.Retire(root))
              else old(recycleMaintenance)
    {
      if root !in nodes || nodes[root].tenant != tenant || nodes[root].status != Purging { return Err(NotFound); }
      DeleteEach(tenant, plan, now);
      assert blobs == Namespace.FinishPurge(old(Tree()), tenant, root, plan, now).0.blobs;
      RetireLease(root);
      return Ok(());
    }

    method DeleteEach(tenant: Id, plan: set<Id>, now: Time)
      modifies this`blobs
      ensures blobs == map b | b in old(blobs) ::
                if b in plan && old(blobs)[b].tenant == tenant && old(blobs)[b].status == PendingDelete
                then old(blobs)[b].(status := Deleted, deletedAt := Some(now)) else old(blobs)[b]
    {
      var todo := plan;
      while todo != {}
        invariant todo <= plan
        invariant blobs == map b | b in old(blobs) ::
                    if b in plan && b !in todo && old(blobs)[b].tenant == tenant
                        && old(blobs)[b].status == PendingDelete
                    then old(blobs)[b].(status := Deleted, deletedAt := Some(now)) else old(blobs)[b]
        decreases todo
      {
        var b :| b in todo;
        todo := todo - {b};
        if b in blobs && blobs[b].tenant == tenant && blobs[b].status == PendingDelete {
          blobs := blobs[b := blobs[b].(status := Deleted, deletedAt := Some(now))];
        }
      }
    }

    method RetireLease(root: Id)
      modifies this`recycleMaintenance
      ensures recycleMaintenance == Leases.Apply(old(recycleMaintenance), Leases.Retire(root))
    {
      var lease := Leases.Of(recycleMaintenance, root);
      recycleMaintenance := recycleMaintenance[root := lease.(owner := NONE, until := ZERO,
          notBefore := Leases.FOREVER, failed := false)];
    }

    method DownloadBlob(tenant: Id, id: Id) returns (r: Result<Id>)
      ensures r == Download(Tree(), tenant, id)
      ensures Namespace.Inv(Tree()) && VisibleIn(Tree(), tenant, id) && nodes[id].kind == File ==> r.Ok?
    {
      if Namespace.Inv(Tree()) && VisibleIn(Tree(), tenant, id)
          && nodes[id].kind == File { VisibleFileDownloads(Tree(), tenant, id); }
      if id !in nodes || nodes[id].tenant != tenant || nodes[id].kind != File
          || !Visible(nodes[id]) { return Err(NotFound); }
      var v := nodes[id].version;
      if v !in versions || versions[v].tenant != tenant { return Err(Internal); }
      var b := versions[v].blob;
      if b !in blobs || blobs[b].tenant != tenant || blobs[b].status != Available { return Err(NotFound); }
      return Ok(b);
    }

    // --------------------------------------------------------------- upload sessions

    method CreateUpload(u: Id, session: Uploads.Session) returns (r: Result<Uploads.Session>)
      modifies this`uploads
      ensures old(CleanupOk()) ==> CleanupOk()
      ensures (Value(), r) == Uploads.CreateUpload(old(Value()), u, session)
    {
      if !OpenDirectory(Tree(), session.tenant, session.parent) { return Err(NotFound); }
      var taken := NameExists(Tree(), session.tenant, session.parent, session.name, NONE);
      if taken { return Err(NameConflict); }
      if u in uploads { return Err(IdempotencyConflict); }
      uploads := uploads[u := session];
      return Ok(session);
    }

    method MarkUploading(tenant: Id, u: Id, now: Time) returns (r: Result<Uploads.Session>)
      modifies this`uploads
      ensures old(CleanupOk()) ==> CleanupOk()
      ensures (Value(), r) == Uploads.MarkUploading(old(Value()), tenant, u, now)
    {
      if u !in uploads || uploads[u].tenant != tenant { return Err(NotFound); }
      var session := uploads[u];
      if session.status == Uploads.Uploading { return Ok(session); }
      if session.status != Uploads.Created { return Err(InvalidState); }
      session := session.(status := Uploads.Uploading, revision := session.revision + 1, updatedAt := now);
      uploads := uploads[u := session];
      return Ok(session);
    }

    method BeginComplete(tenant: Id, u: Id, digest: seq<Part>, list: seq<Part>, now: Time)
      returns (r: Result<Uploads.Session>)
      modifies this`uploads, this`parts
      ensures old(CleanupOk()) ==> CleanupOk()
      ensures (Value(), r) == Uploads.BeginComplete(old(Value()), tenant, u, digest, list, now)
    {
      if u !in uploads || uploads[u].tenant != tenant { return Err(NotFound); }
      var session := uploads[u];
      if session.digest.Some? && session.digest.value != digest { return Err(IdempotencyConflict); }
      if session.status == Uploads.Committed || session.status == Uploads.ObjectCompleted
          || session.status == Uploads.Completing { return Ok(session); }
      if session.status != Uploads.Created && session.status != Uploads.Uploading { return Err(InvalidState); }
      if now >= session.expiresAt { return Err(InvalidState); }
      session := session.(status := Uploads.Completing, digest := Some(digest), revision := session.revision + 1,
          updatedAt := now);
      uploads := uploads[u := session];
      parts := parts[u := list];
      return Ok(session);
    }

    method FailUploadCompletion(tenant: Id, u: Id, digest: seq<Part>, failure: Uploads.Failure, now: Time)
      returns (r: Result<Uploads.Session>)
      modifies this`uploads, this`uploadMaintenance
      ensures old(CleanupOk()) ==> CleanupOk()
      ensures (Value(), r) == Uploads.FailUploadCompletion(old(Value()), tenant, u, digest, failure, now)
      ensures uploadMaintenance == if uploads == old(uploads) then old(uploadMaintenance)
              else Leases.Apply(old(uploadMaintenance), Leases.MarkCleanup(u, true))
    {
      if failure == Uploads.NoFailure { return Err(InvalidRequest); }
      if u !in uploads || uploads[u].tenant != tenant { return Err(NotFound); }
      var session := uploads[u];
      if session.digest != Some(digest) { return Err(IdempotencyConflict); }
      if session.status == Uploads.Failed { return Ok(session); }
      if session.status != Uploads.Completing { return Err(InvalidState); }
      session := session.(status := Uploads.Failed, failure := failure, revision := session.revision + 1,
          updatedAt := now);
      SetCleanupPending(u);
      uploads := uploads[u := session];
      assert uploads[u] != old(uploads)[u];
      return Ok(session);
    }

    method SetCleanupPending(u: Id)
      modifies this`uploadMaintenance
      ensures uploadMaintenance == Leases.Apply(old(uploadMaintenance), Leases.MarkCleanup(u, true))
    {
      var lease := Leases.Of(uploadMaintenance, u);
      uploadMaintenance := uploadMaintenance[u := lease.(cleanupPending := true)];
    }

    method MarkUploadCleanupComplete(tenant: Id, u: Id) returns (r: Result<()>)
      modifies this`uploadMaintenance
      ensures old(CleanupOk()) ==> CleanupOk()
      ensures r == if !Uploads.HasUpload(Value(), tenant, u) then Err(NotFound)
              else if !Uploads.Terminal(uploads[u].status) then Err(InvalidState) else Ok(())
      ensures uploadMaintenance == if r.Ok? then Leases.Apply(old(uploadMaintenance), Leases.MarkCleanup(u, false))
              else old(uploadMaintenance)
    {
      if u !in uploads || uploads[u].tenant != tenant { return Err(NotFound); }
      if !Uploads.Terminal(uploads[u].status) { return Err(InvalidState); }
      var lease := Leases.Of(uploadMaintenance, u);
      uploadMaintenance := uploadMaintenance[u := lease.(cleanupPending := false, failed := false, notBefore := ZERO)];
      assert uploadMaintenance == Leases.Apply(old(uploadMaintenance), Leases.MarkCleanup(u, false));
      return Ok(());
    }

    method MarkObjectCompleted(tenant: Id, u: Id, now: Time) returns (r: Result<Uploads.Session>)
      modifies this`uploads
      ensures old(CleanupOk()) ==> CleanupOk()
      ensures (Value(), r) == Uploads.MarkObjectCompleted(old(Value()), tenant, u, now)
    {
      if u !in uploads || uploads[u].tenant != tenant { return Err(NotFound); }
      var session := uploads[u];
      if session.status == Uploads.ObjectCompleted || session.status == Uploads.Committed { return Ok(session); }
      if session.status != Uploads.Completing { return Err(InvalidState); }
      session := session.(status := Uploads.ObjectCompleted, revision := session.revision + 1, updatedAt := now);
      uploads := uploads[u := session];
      return Ok(session);
    }

    method CommitUpload(tenant: Id, u: Id, digest: seq<Part>, node: Id, version: Id, blob: Id, size: nat, now: Time)
      returns (r: Result<(Id, bool)>)
      modifies this`uploads, this`nodes, this`versions, this`blobs, this`uploadMaintenance
      ensures old(CleanupOk()) ==> CleanupOk()
      ensures (Value(), r) == Uploads.CommitUpload(old(Value()), tenant, u, digest, node, version, blob, size, now)
      ensures uploadMaintenance == if r.Err?
              && uploads != old(uploads) then Leases.Apply(old(uploadMaintenance), Leases.MarkCleanup(u, true))
                   else old(uploadMaintenance)
    {
      if u !in uploads || uploads[u].tenant != tenant { return Err(NotFound); }
      var session := uploads[u];
      if session.digest != Some(digest) { return Err(IdempotencyConflict); }
      if session.status == Uploads.Committed { return Ok((session.committedNode, false)); }
      if session.status != Uploads.ObjectCompleted { return Err(InvalidState); }
      if !OpenDirectory(Tree(), tenant, session.parent) {
        FailCommit(u, Uploads.ParentUnavailable, now);
        return Err(NotFound);
      }
      var taken := NameExists(Tree(), session.tenant, session.parent, session.name, NONE);
      if taken {
        FailCommit(u, Uploads.NameTakenFailure, now);
        return Err(NameConflict);
      }
      blobs := blobs[blob := Blob(tenant, session.key, size, Available, 1, None)];
      versions := versions[version := Version(tenant, node, blob, size)];
      nodes := nodes[node := Node(tenant, session.parent, File, session.display, session.name, version, size, Active,
          NONE, NONE, 1, now, now, None)];
      session := session.(status := Uploads.Committed, committedNode := node, revision := session.revision + 1,
          updatedAt := now);
      uploads := uploads[u := session];
      return Ok((node, true));
    }

    method FailCommit(u: Id, failure: Uploads.Failure, now: Time)
      requires u in uploads
      modifies this`uploads, this`uploadMaintenance
      ensures uploads == old(uploads)[u := Uploads.Moved(old(uploads)[u], Uploads.Failed, now).(failure := failure)]
      ensures uploads != old(uploads)
      ensures uploadMaintenance == Leases.Apply(old(uploadMaintenance), Leases.MarkCleanup(u, true))
    {
      var session := uploads[u];
      uploads := uploads[u := session.(status := Uploads.Failed, failure := failure, revision := session.revision + 1,
          updatedAt := now)];
      assert uploads[u] != old(uploads)[u];
      SetCleanupPending(u);
    }

    method AbortUpload(tenant: Id, u: Id, target: Uploads.UploadStatus, now: Time) returns (r: Result<Uploads.Session>)
      modifies this`uploads, this`uploadMaintenance
      ensures old(CleanupOk()) ==> CleanupOk()
      ensures (Value(), r) == Uploads.AbortUpload(old(Value()), tenant, u, target, now)
      ensures uploadMaintenance == if uploads == old(uploads) then old(uploadMaintenance)
              else Leases.Apply(old(uploadMaintenance), Leases.MarkCleanup(u, true))
    {
      if u !in uploads || uploads[u].tenant != tenant { return Err(NotFound); }
      var session := uploads[u];
      if session.status == Uploads.Committed { return Err(InvalidState); }
      if session.status == Uploads.Aborted || session.status == Uploads.Expired
          || session.status == Uploads.Failed { return Ok(session); }
      if session.status != Uploads.Created && session.status != Uploads.Uploading { return Err(InvalidState); }
      if target != Uploads.Aborted && target != Uploads.Expired
          && target != Uploads.Failed { return Err(InvalidState); }
      session := session.(status := target, revision := session.revision + 1, updatedAt := now);
      uploads := uploads[u := session];
      assert uploads[u] != old(uploads)[u];
      SetCleanupPending(u);
      return Ok(session);
    }

    // ------------------------------------------------------------------- maintenance

    /** The sessions a maintenance round may claim, in order of expiry. */
    method DueUploads(now: Time, staleBefore: Time) returns (ids: seq<Id>)
      ensures NoDuplicates(ids) && SortedByExpiry(uploads, ids)
      ensures forall u :: u in ids <==>
              u in uploads && UploadDue(uploads[u], Leases.Of(uploadMaintenance, u), now, staleBefore)
    {
      ids := [];
      var todo := uploads.Keys;
      while todo != {}
        invariant todo <= uploads.Keys && NoDuplicates(ids) && SortedByExpiry(uploads, ids)
        invariant forall u :: u in ids <==>
                u in uploads && u !in todo && UploadDue(uploads[u], Leases.Of(uploadMaintenance, u), now, staleBefore)
        decreases todo
      {
        var u :| u in todo;
        todo := todo - {u};
        if UploadDue(uploads[u], Leases.Of(uploadMaintenance, u), now, staleBefore) {
          InsertByExpiry(uploads, u, ids);
          ids := Sorting.Insert(ByExpiry(uploads), u, ids);
        }
      }
    }

    /** Claims the due sessions that expire first, at most `limit` of them unless it is 0. */
    method ClaimUploadsForMaintenance(owner: Id, now: Time, staleBefore: Time, until: Time, limit: nat)
      returns (ids: seq<Id>)
      modifies this`uploadMaintenance
      ensures old(CleanupOk()) ==> CleanupOk()
      ensures NoDuplicates(ids) && (limit > 0 ==> |ids| <= limit)
      ensures forall u :: u in ids ==>
              u in uploads && UploadDue(uploads[u], Leases.Of(old(uploadMaintenance), u), now, staleBefore)
      ensures forall u, v |
                u in ids && v in uploads && v !in ids
                && UploadDue(uploads[v], Leases.Of(old(uploadMaintenance), v), now, staleBefore) ::
                limit > 0 && |ids| == limit && uploads[u].expiresAt <= uploads[v].expiresAt
      ensures ids == [] ==> forall v :: v in uploads ==>
              !UploadDue(uploads[v], Leases.Of(old(uploadMaintenance), v), now, staleBefore)
      ensures uploadMaintenance == Leases.Apply(old(uploadMaintenance),
              Leases.Take(owner, now, until, set u | u in ids))
    {
      var due := DueUploads(now, staleBefore);
      ids := if limit > 0 && |due| > limit then due[..limit] else due;
      FirstDue(uploads, due, |ids|);
      uploadMaintenance := TakeEach(uploadMaintenance, owner, now, until, ids);
    }

    /** Writes the given status over the current one and ends the lease, if the caller still owns it. */
    method FinishUploadMaintenance(
        owner: Id, u: Id, status: Uploads.UploadStatus, cleanupComplete: bool, retryAt: Time, failed: bool, now: Time)
            returns (r: Result<()>)
      modifies this`uploads, this`uploadMaintenance
      ensures old(CleanupOk()) && (cleanupComplete || Uploads.Terminal(status)) ==> CleanupOk()
      ensures r == if Leases.Owns(old(uploadMaintenance), owner, u) && u in old(uploads) then Ok(())
              else Err(InvalidState)
      ensures uploads == if r.Ok? then old(uploads)[u := Uploads.Moved(old(uploads)[u], status, now)] else old(uploads)
      ensures uploadMaintenance == if r.Ok? then Leases.Apply(old(uploadMaintenance),
              Leases.Return(owner, u, retryAt, failed, !cleanupComplete)) else old(uploadMaintenance)
    {
      if u !in uploadMaintenance || uploadMaintenance[u].owner != owner { return Err(InvalidState); }
      if u !in uploads { return Err(InvalidState); }
      var session := uploads[u];
      uploads := uploads[u := session.(status := status, updatedAt := now, revision := session.revision + 1)];
      var lease := uploadMaintenance[u];
      lease := lease.(owner := NONE, until := ZERO, notBefore := retryAt, failed := failed,
          cleanupPending := !cleanupComplete);
      if failed { lease := lease.(attempts := lease.attempts + 1); }
      if cleanupComplete && !failed { lease := lease.(notBefore := ZERO); }
      uploadMaintenance := uploadMaintenance[u := lease];
      return Ok(());
    }

    method DueRoots(cutoff: Time, now: Time) returns (ids: seq<Id>)
      ensures Ascending(ids) && forall x :: x in ids <==>
              x in nodes && RootDue(x, nodes[x], Leases.Of(recycleMaintenance, x), cutoff, now)
    {
      ids := [];
      var todo := nodes.Keys;
      while todo != {}
        invariant todo <= nodes.Keys && Ascending(ids)
        invariant forall x :: x in ids <==>
                x in nodes && x !in todo && RootDue(x, nodes[x], Leases.Of(recycleMaintenance, x), cutoff, now)
        decreases todo
      {
        var x :| x in todo;
        todo := todo - {x};
        if RootDue(x, nodes[x], Leases.Of(recycleMaintenance, x), cutoff, now) {
          Sorting.InsertKeepsOrdered(IdLess, x, ids);
          ids := Sorting.Insert(IdLess, x, ids);
        }
      }
    }

    /** Claims the first due trashed roots and turns them to Purging. */
    method ClaimRecycleForMaintenance(owner: Id, cutoff: Time, now: Time, until: Time, limit: nat)
      returns (ids: seq<Id>)
      modifies this`nodes, this`recycleMaintenance
      ensures Ascending(ids) && (limit > 0 ==> |ids| <= limit)
      ensures forall x :: x in ids ==>
              x in old(nodes) && RootDue(x, old(nodes)[x], Leases.Of(old(recycleMaintenance), x), cutoff, now)
      ensures forall x, y |
                x in ids && y in old(nodes) && y !in ids
                && RootDue(y, old(nodes)[y], Leases.Of(old(recycleMaintenance), y), cutoff, now) ::
                limit > 0 && |ids| == limit && x < y
      ensures ids == [] ==> forall y :: y in old(nodes) ==>
              !RootDue(y, old(nodes)[y], Leases.Of(old(recycleMaintenance), y), cutoff, now)
      ensures Tree() == LeasedForPurge(old(Tree()), ids, now)
      ensures recycleMaintenance == Leases.Apply(old(recycleMaintenance),
              Leases.Take(owner, now, until, set x | x in ids))
    {
      var due := DueRoots(cutoff, now);
      ids := if limit > 0 && |due| > limit then due[..limit] else due;
      FirstRoots(due, |ids|);
      PurgeRoots(ids, now);
      recycleMaintenance := TakeEach(recycleMaintenance, owner, now, until, ids);
    }

    method PurgeRoots(ids: seq<Id>, now: Time)
      requires Ascending(ids) && forall x :: x in ids ==>
              x in nodes && nodes[x].trashedRoot == x && nodes[x].status != Active
      modifies this`nodes
      ensures Tree() == LeasedForPurge(old(Tree()), ids, now)
    {
      for k := 0 to |ids|
        invariant Tree() == LeasedForPurge(old(Tree()), ids[..k], now)
        invariant forall j :: k <= j < |ids| ==> ids[j] in nodes && nodes[ids[j]] == old(nodes)[ids[j]]
      {
        assert ids[k] in ids && ids[..k + 1][..k] == ids[..k];
        nodes := nodes[ids[k] := nodes[ids[k]].(status := Purging, updatedAt := now)];
      }
      assert ids[..|ids|] == ids;
    }

    method ReleaseRecycleMaintenance(owner: Id, root: Id, retryAt: Time) returns (r: Result<()>)
      modifies this`recycleMaintenance
      ensures r == if Leases.Owns(old(recycleMaintenance), owner, root) then Ok(()) else Err(InvalidState)
      ensures recycleMaintenance == Leases.Apply(old(recycleMaintenance),
              Leases.Return(owner, root, retryAt, true, Leases.Of(old(recycleMaintenance), root).cleanupPending))
    {
      if root !in recycleMaintenance || recycleMaintenance[root].owner != owner { return Err(InvalidState); }
      var lease := recycleMaintenance[root];
      lease := lease.(owner := NONE, until := ZERO, notBefore := retryAt, failed := true,
          attempts := lease.attempts + 1);
      recycleMaintenance := recycleMaintenance[root := lease];
      return Ok(());
    }
  }

  // ------------------------------------------------------------- what a round picks

  method TakeEach(table: Leases.Table, owner: Id, now: Time, until: Time, ids: seq<Id>) returns (leased: Leases.Table)
    requires NoDuplicates(ids)
    ensures leased == Leases.Apply(table, Leases.Take(owner, now, until, set x | x in ids))
  {
    leased := table;
    for k := 0 to |ids|
      invariant forall x :: x in leased <==> x in table || x in ids[..k]
      invariant forall x :: x in leased && x in ids[..k] ==>
              leased[x] == Leases.Claimed(Leases.Of(table, x), owner, until)
      invariant forall x :: x in leased && x !in ids[..k] ==> leased[x] == table[x]
    {
      assert ids[..k + 1] == ids[..k] + [ids[k]];
      var lease := Leases.Of(leased, ids[k]);
      leased := leased[ids[k] := lease.(owner := owner, until := until)];
    }
    assert ids[..|ids|] == ids;
  }

  predicate UploadDue(s: Uploads.Session, lease: Leases.Lease, now: Time, staleBefore: Time) {
    && Leases.Claimable(lease, now)
    && (|| ((s.status == Uploads.Created || s.status == Uploads.Uploading) && s.expiresAt <= now)
        || ((s.status == Uploads.Completing || s.status == Uploads.ObjectCompleted) && s.updatedAt <= staleBefore)
        || lease.cleanupPending || lease.failed)
  }

  predicate RootDue(id: Id, n: Node, lease: Leases.Lease, cutoff: Time, now: Time) {
    n.trashedRoot == id && n.status != Active && n.deletedAt.Some? && n.deletedAt.value <= cutoff
        && Leases.Claimable(lease, now)
  }

  /** LeaseForPurge of each claimed root in turn. */
  function LeasedForPurge(d: Drive, ids: seq<Id>, now: Time): Drive {
    if ids == [] then d else LeaseForPurge(LeasedForPurge(d, ids[..|ids| - 1], now), ids[|ids| - 1], now)
  }

  predicate IdLess(x: Id, y: Id) {
    x < y
  }

  predicate Ascending(s: seq<Id>) {
    Sorting.Ordered(IdLess, s)
  }

  lemma FirstRoots(due: seq<Id>, n: nat)
    requires Ascending(due) && n <= |due|
    ensures Ascending(due[..n]) && forall x, y :: x in due[..n] && y in due && y !in due[..n] ==> x < y
  {
    assert due == due[..n] + due[n..];
  }

  /** The order in which sessions are claimed; sessions that expire together may go either way. */
  function ByExpiry(uploads: map<Id, Uploads.Session>): (Id, Id) -> bool {
    (u, v) => u in uploads && v in uploads && uploads[u].expiresAt <= uploads[v].expiresAt
  }

  predicate SortedByExpiry(uploads: map<Id, Uploads.Session>, s: seq<Id>) {
    Sorting.Ordered(ByExpiry(uploads), s)
  }

  lemma InsertByExpiry(uploads: map<Id, Uploads.Session>, u: Id, s: seq<Id>)
    requires u in uploads && (forall x :: x in s ==> x in uploads) && SortedByExpiry(uploads, s) && NoDuplicates(s)
    requires u !in s
    ensures SortedByExpiry(uploads, Sorting.Insert(ByExpiry(uploads), u, s))
    ensures NoDuplicates(Sorting.Insert(ByExpiry(uploads), u, s))
  {
    Sorting.InsertKeepsOrdered(ByExpiry(uploads), u, s);
    InsertKeepsDistinct(ByExpiry(uploads), u, s);
  }

  lemma {:induction false} InsertKeepsDistinct(before: (Id, Id) -> bool, x: Id, s: seq<Id>)
    requires NoDuplicates(s) && x !in s
    ensures NoDuplicates(Sorting.Insert(before, x, s))
  {
    if s != [] && !before(x, s[0]) {
      InsertKeepsDistinct(before, x, s[1..]);
      var rest := Sorting.Insert(before, x, s[1..]);
      forall j | 0 <= j < |rest| ensures rest[j] != s[0] { assert rest[j] in rest; }
    }
  }

  lemma FirstDue(uploads: map<Id, Uploads.Session>, due: seq<Id>, n: nat)
    requires SortedByExpiry(uploads, due) && n <= |due|
    ensures forall u, v :: u in due[..n] && v in due && v !in due[..n] ==> uploads[u].expiresAt <= uploads[v].expiresAt
  {
    assert due == due[..n] + due[n..];
  }
}
