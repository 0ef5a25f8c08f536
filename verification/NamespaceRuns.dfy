/** Runs of namespace operations: what holds in every reachable repository. */
module NamespaceRuns {
  import opened Base
  import opened Namespace
  import opened NamespaceInvariant

  datatype Op =
    | OpEnsureTenant(tenant: Id, root: Id, now: Time)
    | OpCreateDirectory(tenant: Id, id: Id, parent: Id, display: string, name: Name, now: Time)
    | OpUpdateNode(tenant: Id, id: Id, rename: Option<(string, Name)>, move: Option<Id>, revision: int, now: Time)
    | OpAddFile(tenant: Id, parent: Id, display: string, name: Name, id: Id, version: Id, blob: Id, key: Id, size: nat,
        now: Time)
    | OpRecycle(tenant: Id, id: Id, revision: int, now: Time)
    | OpRestore(tenant: Id, id: Id, revision: int, now: Time)
    | OpPreparePurge(tenant: Id, id: Id, revision: int, now: Time)
    | OpFinishPurge(tenant: Id, id: Id, plan: set<Id>, now: Time)
    | OpLeaseForPurge(id: Id, now: Time)

  ghost function Apply(d: Drive, op: Op): Drive {
    match op
    case OpEnsureTenant(t, root, now) => EnsureTenant(d, t, root, now)
    case OpCreateDirectory(t, id, parent, display, name, now) => CreateDirectory(d, t, id, parent, display, name, now).0
    case OpUpdateNode(t, id, rename, move, rev, now) => UpdateNode(d, t, id, rename, move, rev, now).0
    case OpAddFile(t, parent, display, name, id, v, b, key, size, now) =>
      if OpenDirectory(d, t, parent) && !NameTaken(d, t, parent, name, NONE)
      then AddFile(d, t, parent, display, name, id, v, b, key, size, now) else d
    case OpRecycle(t, id, rev, now) => Recycle(d, t, id, rev, now).0
    case OpRestore(t, id, rev, now) => Restore(d, t, id, rev, now).0
    case OpPreparePurge(t, id, rev, now) => PreparePurge(d, t, id, rev, now).0
    case OpFinishPurge(t, id, plan, now) => FinishPurge(d, t, id, plan, now).0
    case OpLeaseForPurge(id, now) => LeaseForPurge(d, id, now)
  }

  /** Generated identifiers are new. */
  predicate Admissible(d: Drive, op: Op) {
    match op
    case OpEnsureTenant(_, root, _) => root !in d.nodes && root != NONE
    case OpCreateDirectory(_, id, _, _, _, _) => id !in d.nodes && id != NONE
    case OpAddFile(_, _, _, _, id, v, b, _, _, _) => id !in d.nodes && id != NONE && v !in d.versions && b !in d.blobs
    case _ => true
  }

  ghost function Run(d: Drive, ops: seq<Op>): Drive
    decreases |ops|
  {
    if ops == [] then d else Run(Apply(d, ops[0]), ops[1..])
  }

  ghost predicate AdmissibleRun(d: Drive, ops: seq<Op>)
    decreases |ops|
  {
    ops == [] || (Admissible(d, ops[0]) && AdmissibleRun(Apply(d, ops[0]), ops[1..]))
  }

  lemma StepKeepsInv(d: Drive, op: Op)
    requires Inv(d) && Admissible(d, op)
    ensures Inv(Apply(d, op)) && Evolves(d, Apply(d, op))
  {
    match op
    case OpEnsureTenant(t, root, now) => EnsureTenantKeepsInv(d, t, root, now);
    case OpCreateDirectory(t, id, parent, display, name, now) => CreateDirectoryKeepsInv(d, t, id, parent, display,
        name, now);
    case OpUpdateNode(t, id, rename, move, rev, now) => UpdateNodeKeepsInv(d, t, id, rename, move, rev, now);
    case OpAddFile(t, parent, display, name, id, v, b, key, size, now) =>
      if OpenDirectory(d, t, parent) && !NameTaken(d, t, parent, name, NONE) {
        AddFileKeepsInv(d, t, parent, display, name, id, v, b, key, size, now);
      }
    case OpRecycle(t, id, rev, now) => RecycleKeepsInv(d, t, id, rev, now);
    case OpRestore(t, id, rev, now) => RestoreKeepsInv(d, t, id, rev, now);
    case OpPreparePurge(t, id, rev, now) => PreparePurgeKeepsInv(d, t, id, rev, now);
    case OpFinishPurge(t, id, plan, now) => FinishPurgeKeepsInv(d, t, id, plan, now);
    case OpLeaseForPurge(id, now) => LeaseForPurgeKeepsInv(d, id, now);
  }

  /** Every repository reachable from the empty one satisfies the invariant. */
  lemma {:induction false} ReachableKeepsInv(d: Drive, ops: seq<Op>)
    requires Inv(d) && AdmissibleRun(d, ops)
    ensures Inv(Run(d, ops))
    decreases |ops|
  {
    if ops == [] {
    } else {
      StepKeepsInv(d, ops[0]);
      ReachableKeepsInv(Apply(d, ops[0]), ops[1..]);
    }
  }

  lemma EmptyInv()
    ensures Inv(EMPTY)
  {
    assert Ranks(EMPTY.nodes, map[]);
  }

  /** In every reachable state no two visible nodes share tenant, parent and normalized name. */
  lemma VisibleNamesAreUnique(ops: seq<Op>, x: Id, y: Id)
    requires AdmissibleRun(EMPTY, ops)
    requires var d := Run(EMPTY, ops); x in d.nodes && y in d.nodes && Visible(d.nodes[x]) && Visible(d.nodes[y])
    requires var d := Run(EMPTY, ops);
            d.nodes[x].tenant == d.nodes[y].tenant && d.nodes[x].parent == d.nodes[y].parent
                && d.nodes[x].name == d.nodes[y].name
    ensures x == y
  {
    EmptyInv();
    ReachableKeepsInv(EMPTY, ops);
    var d := Run(EMPTY, ops);
    assert SameSlot(d.nodes[x], d.nodes[y]);
  }

  // ------------------------------------------------------------- what never changes

  /** Along any run: identities are permanent, Purging is never left, blobs only move towards Deleted. */
  lemma {:induction false} RunEvolves(d: Drive, ops: seq<Op>)
    requires Inv(d) && AdmissibleRun(d, ops)
    ensures Evolves(d, Run(d, ops))
    decreases |ops|
  {
    if ops == [] {
    } else {
      StepKeepsInv(d, ops[0]);
      RunEvolves(Apply(d, ops[0]), ops[1..]);
      EvolvesTransitive(d, Apply(d, ops[0]), Run(d, ops));
    }
  }
}
