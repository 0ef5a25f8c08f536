/**
  The namespace tree, the recycle bin and the purge metadata of the in-memory
  repository, as values: what one call does to the maps, stated declaratively.
  The methods of `MemoryRepository.Repository` are proved against these functions.
 */
module Namespace {
  import opened Base

  datatype Kind = Directory | File
  datatype Status = Active | Trashed | Purging
  datatype BlobStatus = Available | PendingDelete | Deleted

  datatype Node = Node(
    tenant: Id, parent: Id, kind: Kind, display: string, name: Name, version: Id, size: nat,
    status: Status, trashedRoot: Id, originalParent: Id,
    revision: int, createdAt: Time, updatedAt: Time, deletedAt: Option<Time>)

  datatype Version = Version(tenant: Id, node: Id, blob: Id, size: nat)

  datatype Blob = Blob(tenant: Id, key: Id, size: nat, status: BlobStatus, references: nat, deletedAt: Option<Time>)

  /** Nodes are stored under their id; `tenants` maps a tenant to its root directory. */
  datatype Drive = Drive(
    tenants: map<Id, Id>, nodes: map<Id, Node>, versions: map<Id, Version>, blobs: map<Id, Blob>)

  const EMPTY := Drive(map[], map[], map[], map[])

  predicate Visible(n: Node) {
    n.status == Active && n.trashedRoot == NONE
  }

  predicate VisibleIn(d: Drive, tenant: Id, id: Id) {
    id in d.nodes && d.nodes[id].tenant == tenant && Visible(d.nodes[id])
  }

  predicate OpenDirectory(d: Drive, tenant: Id, id: Id) {
    VisibleIn(d, tenant, id) && d.nodes[id].kind == Directory
  }

  predicate NameTaken(d: Drive, tenant: Id, parent: Id, name: Name, except: Id) {
    exists id :: id in d.nodes && id != except && Visible(d.nodes[id])
              && d.nodes[id].tenant == tenant && d.nodes[id].parent == parent && d.nodes[id].name == name
  }

  predicate IsTenantRoot(d: Drive, tenant: Id, id: Id) {
    tenant in d.tenants && d.tenants[tenant] == id
  }

  // ---------------------------------------------------------------- ancestry

  /** The node reached from `x` by following `k` parent pointers. */
  ghost function Climb(nodes: map<Id, Node>, x: Id, k: nat): Id
    decreases k
  {
    if k == 0 then x
    else if x in nodes then Climb(nodes, nodes[x].parent, k - 1)
    else NONE
  }

  /** `x` is `a` or one of its descendants. */
  ghost predicate Under(nodes: map<Id, Node>, x: Id, a: Id) {
    exists k: nat :: Climb(nodes, x, k) == a
  }

  // -------------------------------------------------------------- operations

  function EnsureTenant(d: Drive, tenant: Id, root: Id, now: Time): Drive {
    if tenant in d.tenants then d
    else d.(
      tenants := d.tenants[tenant := root],
      nodes := d.nodes[root := Node(tenant, NONE, Directory, "", 0, NONE, 0, Active, NONE, NONE, 1, now, now, None)])
  }

  function CreateDirectory(
      d: Drive, tenant: Id, id: Id, parent: Id, display: string, name: Name, now: Time): (Drive, Result<Node>) {
    if !OpenDirectory(d, tenant, parent) then (d, Err(NotFound))
    else if NameTaken(d, tenant, parent, name, NONE) then (d, Err(NameConflict))
    else
      var node := Node(tenant, parent, Directory, display, name, NONE, 0, Active, NONE, NONE, 1, now, now, None);
      (d.(nodes := d.nodes[id := node]), Ok(node))
  }

  /** Rename and/or move. */
  ghost function UpdateNode(
      d: Drive, tenant: Id, id: Id, name: Option<(string, Name)>, parent: Option<Id>, revision: int,
          now: Time): (Drive, Result<Node>) {
    if !VisibleIn(d, tenant, id) then (d, Err(NotFound))
    else if IsTenantRoot(d, tenant, id) then (d, Err(InvalidRequest))
    else
      var node := d.nodes[id];
      if node.revision != revision then (d, Err(RevisionMismatch))
      else if parent.Some? && !OpenDirectory(d, tenant, parent.value) then (d, Err(NotFound))
      else if parent.Some? && node.kind == Directory && Under(d.nodes, parent.value, id) then (d, Err(InvalidRequest))
      else
        var toParent := if parent.Some? then parent.value else node.parent;
        var toName := if name.Some? then name.value.1 else node.name;
        if NameTaken(d, tenant, toParent, toName, id) then (d, Err(NameConflict))
        else
          var moved := node.(
            display := if name.Some? then name.value.0 else node.display, name := toName,
            parent := toParent, revision := node.revision + 1, updatedAt := now);
          (d.(nodes := d.nodes[id := moved]), Ok(moved))
  }

  /** The visible part of the subtree below `root`, `root` included. */
  ghost function VisibleSubtree(d: Drive, root: Id): set<Id> {
    set x | x in d.nodes && Visible(d.nodes[x]) && Under(d.nodes, x, root)
  }

  function TrashGroup(d: Drive, tenant: Id, root: Id): set<Id> {
    set x | x in d.nodes && d.nodes[x].tenant == tenant && d.nodes[x].trashedRoot == root
  }

  function Trash(n: Node, isRoot: bool, root: Id, now: Time): Node {
    var m := n.(trashedRoot := root, updatedAt := now);
    if isRoot then m.(status := Trashed, originalParent := n.parent, revision := n.revision + 1,
        deletedAt := Some(now)) else m
  }

  function Untrash(n: Node, isRoot: bool, now: Time): Node {
    var m := n.(trashedRoot := NONE, updatedAt := now);
    if isRoot then m.(status := Active, parent := n.originalParent, originalParent := NONE, revision := n.revision + 1,
        deletedAt := None) else m
  }

  function TrashAll(nodes: map<Id, Node>, group: set<Id>, root: Id, now: Time): map<Id, Node> {
    map x | x in nodes :: if x in group then Trash(nodes[x], x == root, root, now) else nodes[x]
  }

  function UntrashAll(nodes: map<Id, Node>, group: set<Id>, root: Id, now: Time): map<Id, Node> {
    map x | x in nodes :: if x in group then Untrash(nodes[x], x == root, now) else nodes[x]
  }

  ghost function Recycle(d: Drive, tenant: Id, id: Id, revision: int, now: Time): (Drive, Result<()>) {
    if id !in d.nodes || d.nodes[id].tenant != tenant then (d, Err(NotFound))
    else if IsTenantRoot(d, tenant, id) then (d, Err(InvalidRequest))
    else if d.nodes[id].status == Trashed && d.nodes[id].trashedRoot == id then (d, Ok(()))
    else if !Visible(d.nodes[id]) then (d, Err(NotFound))
    else if d.nodes[id].revision != revision then (d, Err(RevisionMismatch))
    else (d.(nodes := TrashAll(d.nodes, VisibleSubtree(d, id), id, now)), Ok(()))
  }

  function Restore(d: Drive, tenant: Id, id: Id, revision: int, now: Time): (Drive, Result<Node>) {
    if id !in d.nodes || d.nodes[id].tenant != tenant || d.nodes[id].status != Trashed
        || d.nodes[id].trashedRoot != id then (d, Err(NotFound))
    else if d.nodes[id].revision != revision then (d, Err(RevisionMismatch))
    else
      var node := d.nodes[id];
      if !OpenDirectory(d, tenant, node.originalParent)
          || NameTaken(d, tenant, node.originalParent, node.name, id) then (d, Err(RestoreConflict))
      else (d.(nodes := UntrashAll(d.nodes, TrashGroup(d, tenant, id), id, now)), Ok(Untrash(node, true, now)))
  }

  /** Blobs of the group's versions that no version outside the group refers to and that are not yet deleted. */
  function PurgeableBlobs(d: Drive, tenant: Id, root: Id): set<Id> {
    var group := TrashGroup(d, tenant, root);
    set v | v in d.versions && d.versions[v].tenant == tenant && d.versions[v].node in group
         && d.versions[v].blob in d.blobs && d.blobs[d.versions[v].blob].status != Deleted
         && (forall w :: w in d.versions && d.versions[w].blob == d.versions[v].blob ==> d.versions[w].node in group)
      :: d.versions[v].blob
  }

  predicate PurgeEntry(d: Drive, tenant: Id, id: Id) {
    id in d.nodes && d.nodes[id].tenant == tenant && d.nodes[id].status != Active && d.nodes[id].trashedRoot == id
  }

  /** Answers the ids of the blobs whose objects are to be deleted. */
  function PreparePurge(d: Drive, tenant: Id, id: Id, revision: int, now: Time): (Drive, Result<set<Id>>) {
    if !PurgeEntry(d, tenant, id) then (d, Err(NotFound))
    else if d.nodes[id].revision != revision then (d, Err(RevisionMismatch))
    else
      var group := TrashGroup(d, tenant, id);
      var plan := PurgeableBlobs(d, tenant, id);
      (d.(
         nodes := map x | x in d.nodes :: if x in group then d.nodes[x].(status := Purging, updatedAt := now)
             else d.nodes[x],
         blobs := map b | b in d.blobs :: if b in plan then d.blobs[b].(status := PendingDelete, references := 0)
             else d.blobs[b]),
       Ok(plan))
  }

  function FinishPurge(d: Drive, tenant: Id, root: Id, plan: set<Id>, now: Time): (Drive, Result<()>) {
    if root !in d.nodes || d.nodes[root].tenant != tenant || d.nodes[root].status != Purging then (d, Err(NotFound))
    else
      (d.(blobs := map b | b in d.blobs ::
            if b in plan && d.blobs[b].tenant == tenant && d.blobs[b].status == PendingDelete
            then d.blobs[b].(status := Deleted, deletedAt := Some(now)) else d.blobs[b]),
       Ok(()))
  }

  /** What the maintenance lease does to the trashed root it claims. */
  function LeaseForPurge(d: Drive, id: Id, now: Time): Drive {
    if id in d.nodes && d.nodes[id].trashedRoot == id && d.nodes[id].status != Active
    then d.(nodes := d.nodes[id := d.nodes[id].(status := Purging, updatedAt := now)])
    else d
  }

  /** The rows CommitUpload inserts, when its target directory and name are free. */
  function AddFile(
      d: Drive, tenant: Id, parent: Id, display: string, name: Name, node: Id, version: Id, blob: Id, key: Id,
          size: nat, now: Time): Drive {
    d.(
      blobs := d.blobs[blob := Blob(tenant, key, size, Available, 1, None)],
      versions := d.versions[version := Version(tenant, node, blob, size)],
      nodes := d.nodes[node := Node(tenant, parent, File, display, name, version, size, Active, NONE, NONE, 1, now,
          now, None)])
  }

  /** DownloadBlob: the file's current blob, if it can be served. */
  function Download(d: Drive, tenant: Id, id: Id): Result<Id> {
    if !VisibleIn(d, tenant, id) || d.nodes[id].kind != File then Err(NotFound)
    else if d.nodes[id].version !in d.versions || d.versions[d.nodes[id].version].tenant != tenant then Err(Internal)
    else
      var b := d.versions[d.nodes[id].version].blob;
      if b !in d.blobs || d.blobs[b].tenant != tenant || d.blobs[b].status != Available then Err(NotFound) else Ok(b)
  }

  // --------------------------------------------------------------- invariant

  /** A node is its tenant's root or hangs under a directory of the same tenant. */
  ghost predicate Placed(d: Drive, id: Id)
    requires id in d.nodes
  {
    var n := d.nodes[id];
    && n.tenant in d.tenants
    && if id == d.tenants[n.tenant]
       then n.parent == NONE && n.kind == Directory && Visible(n)
       else n.parent in d.nodes && d.nodes[n.parent].tenant == n.tenant && d.nodes[n.parent].kind == Directory
  }

  /**
    `trashedRoot` partitions the nodes into the visible class NONE and one trash group
    per recycled root. A node belongs to its parent's class or is the root of its own.
   */
  ghost predicate Grouped(d: Drive, id: Id)
    requires id in d.nodes
  {
    var n := d.nodes[id];
    if n.trashedRoot == id then
      n.status != Active && n.originalParent == n.parent && n.deletedAt.Some?
    else
      && n.originalParent == NONE && n.deletedAt == None
      && (n.parent in d.nodes ==> n.trashedRoot == d.nodes[n.parent].trashedRoot)
      && if n.trashedRoot == NONE then n.status == Active
         else && n.trashedRoot in d.nodes
              && d.nodes[n.trashedRoot].trashedRoot == n.trashedRoot
              && d.nodes[n.trashedRoot].tenant == n.tenant
              && (n.status == Active || (n.status == Purging && d.nodes[n.trashedRoot].status == Purging))
  }

  predicate SameSlot(a: Node, b: Node) {
    a.tenant == b.tenant && a.parent == b.parent && a.name == b.name && a.trashedRoot == b.trashedRoot
  }

  /** No two nodes of one class share tenant, parent and name. */
  ghost predicate UniqueNames(nodes: map<Id, Node>) {
    forall x, y {:trigger SameSlot(nodes[x], nodes[y])} :: x in nodes && y in nodes && SameSlot(nodes[x], nodes[y]) ==>
        x == y
  }

  ghost predicate Ranks(nodes: map<Id, Node>, rank: map<Id, nat>) {
    && rank.Keys == nodes.Keys
    && forall id :: id in nodes && nodes[id].parent in nodes ==> rank[nodes[id].parent] < rank[id]
  }

  ghost predicate Acyclic(nodes: map<Id, Node>) {
    exists rank :: Ranks(nodes, rank)
  }

  /** A file has a current version, which belongs to it. */
  ghost predicate Backed(d: Drive, id: Id)
    requires id in d.nodes
  {
    d.nodes[id].kind == File ==> d.nodes[id].version in d.versions && d.versions[d.nodes[id].version].node == id
  }

  /** A version is the current one of an existing file, and its blob is available until that file is purging. */
  ghost predicate Guarded(d: Drive, v: Id)
    requires v in d.versions
  {
    var ver := d.versions[v];
    && ver.node in d.nodes && d.nodes[ver.node].kind == File && d.nodes[ver.node].version == v
    && d.nodes[ver.node].tenant == ver.tenant
    && ver.blob in d.blobs && d.blobs[ver.blob].tenant == ver.tenant
    && (d.blobs[ver.blob].status != Available ==> d.nodes[ver.node].status == Purging)
  }

  ghost predicate Rooted(d: Drive) {
    forall t :: t in d.tenants ==> d.tenants[t] in d.nodes && d.nodes[d.tenants[t]].tenant == t
  }

  /** The shape of the tree and of the recycle bin. */
  ghost predicate Forest(d: Drive) {
    && NONE !in d.nodes
    && Rooted(d)
    && (forall id {:trigger Placed(d, id)} :: id in d.nodes ==> Placed(d, id))
    && (forall id {:trigger Grouped(d, id)} :: id in d.nodes ==> Grouped(d, id))
    && UniqueNames(d.nodes)
    && Acyclic(d.nodes)
  }

  ghost predicate Files(d: Drive) {
    && (forall id {:trigger Backed(d, id)} :: id in d.nodes ==> Backed(d, id))
    && (forall v {:trigger Guarded(d, v)} :: v in d.versions ==> Guarded(d, v))
  }

  ghost predicate Inv(d: Drive) {
    Forest(d) && Files(d)
  }
}
