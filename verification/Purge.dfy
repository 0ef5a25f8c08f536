/** Purging can be retried from any crash point until it is finished. */
module Purge {
  import opened Base
  import opened Namespace
  import opened NamespaceInvariant
  import opened NamespaceRuns

  /** A group whose purge has begun. */
  ghost predicate PurgeBegun(d: Drive, tenant: Id, root: Id) {
    PurgeEntry(d, tenant, root) && d.nodes[root].status == Purging
  }

  /** Nothing joins or leaves the group, and its root keeps its revision. */
  ghost predicate SameGroup(d: Drive, e: Drive, tenant: Id, root: Id)
    requires root in d.nodes
  {
    && TrashGroup(e, tenant, root) == TrashGroup(d, tenant, root)
    && PurgeBegun(e, tenant, root) && e.nodes[root].revision == d.nodes[root].revision
  }

  lemma RecycleKeepsPurgingGroup(d: Drive, t: Id, id: Id, rev: int, now: Time, tenant: Id, root: Id)
    requires Inv(d) && PurgeBegun(d, tenant, root)
    ensures SameGroup(d, Recycle(d, t, id, rev, now).0, tenant, root)
  {
    var e := Recycle(d, t, id, rev, now).0;
    forall x | x in d.nodes ensures x in TrashGroup(e, tenant, root) <==> x in TrashGroup(d, tenant, root) {
      if d.nodes[x].trashedRoot == id { assert Grouped(d, x); }
    }
    assert root in TrashGroup(d, tenant, root);
  }

  lemma RestoreKeepsPurgingGroup(d: Drive, t: Id, id: Id, rev: int, now: Time, tenant: Id, root: Id)
    requires Inv(d) && PurgeBegun(d, tenant, root)
    ensures SameGroup(d, Restore(d, t, id, rev, now).0, tenant, root)
  {
    var e := Restore(d, t, id, rev, now).0;
    forall x | x in d.nodes ensures x in TrashGroup(e, tenant, root) <==> x in TrashGroup(d, tenant, root) {}
  }

  /** Same tenant, same group; a trashed node keeps its revision and stays Purging. */
  predicate KeepsMarks(m: Node, n: Node) {
    n.tenant == m.tenant && n.trashedRoot == m.trashedRoot
        && (m.trashedRoot != NONE ==> n.revision == m.revision && (m.status == Purging ==> n.status == Purging))
  }

  lemma OtherOpsKeepMarks(d: Drive, op: Op)
    requires Admissible(d, op) && !op.OpRecycle? && !op.OpRestore?
    ensures var e := Apply(d, op);
            && (forall x :: x in d.nodes ==> x in e.nodes && KeepsMarks(d.nodes[x], e.nodes[x]))
            && (forall x :: x in e.nodes && x !in d.nodes ==> e.nodes[x].trashedRoot == NONE)
  {
  }

  lemma OtherOpsKeepPurgingGroup(d: Drive, op: Op, tenant: Id, root: Id)
    requires NONE !in d.nodes && Admissible(d, op) && PurgeBegun(d, tenant, root) && !op.OpRecycle? && !op.OpRestore?
    ensures SameGroup(d, Apply(d, op), tenant, root)
  {
    OtherOpsKeepMarks(d, op);
    assert KeepsMarks(d.nodes[root], Apply(d, op).nodes[root]);
  }

  lemma StepKeepsPurgingGroup(d: Drive, op: Op, tenant: Id, root: Id)
    requires Inv(d) && Admissible(d, op) && PurgeBegun(d, tenant, root)
    ensures SameGroup(d, Apply(d, op), tenant, root)
  {
    match op
    case OpRecycle(t, id, rev, now) => RecycleKeepsPurgingGroup(d, t, id, rev, now, tenant, root);
    case OpRestore(t, id, rev, now) => RestoreKeepsPurgingGroup(d, t, id, rev, now, tenant, root);
    case _ => OtherOpsKeepPurgingGroup(d, op, tenant, root);
  }

  /** Is this the step that ends the purge of some of these blobs? */
  predicate Finishes(op: Op, blobs: set<Id>) {
    op.OpFinishPurge? && !(op.plan !! blobs)
  }

  /** Versions are only added, for new files with new blobs. */
  ghost predicate VersionsGrow(d: Drive, e: Drive) {
    forall w :: w in e.versions && w !in d.versions ==> e.versions[w].blob !in d.blobs && e.versions[w].node !in d.nodes
  }

  lemma PlanDependsOnGroup(d: Drive, e: Drive, tenant: Id, root: Id)
    requires Files(d) && Evolves(d, e) && VersionsGrow(d, e)
    requires TrashGroup(e, tenant, root) == TrashGroup(d, tenant, root)
    requires forall b :: b in PurgeableBlobs(d, tenant, root) ==> b in e.blobs && e.blobs[b].status != Deleted
    ensures PurgeableBlobs(e, tenant, root) == PurgeableBlobs(d, tenant, root)
  {
    var group := TrashGroup(d, tenant, root);
    forall v | v in d.versions ensures Guarded(d, v) {}
    forall b | b in PurgeableBlobs(e, tenant, root) ensures b in PurgeableBlobs(d, tenant, root) {
      var v :| v in e.versions && e.versions[v].blob == b && e.versions[v].tenant == tenant
          && e.versions[v].node in group
            && b in e.blobs && e.blobs[b].status != Deleted
            && forall w :: w in e.versions && e.versions[w].blob == b ==> e.versions[w].node in group;
      assert v in d.versions;
      assert BlobEvolves(d.blobs[b], e.blobs[b]);
    }
    forall b | b in PurgeableBlobs(d, tenant, root) ensures b in PurgeableBlobs(e, tenant, root) {
      var v :| v in d.versions && d.versions[v].blob == b && d.versions[v].tenant == tenant
          && d.versions[v].node in group
            && b in d.blobs && d.blobs[b].status != Deleted
            && forall w :: w in d.versions && d.versions[w].blob == b ==> d.versions[w].node in group;
      assert v in e.versions && e.versions[v] == d.versions[v];
      forall w | w in e.versions && e.versions[w].blob == b ensures e.versions[w].node in group {
        assert w in d.versions;
      }
    }
  }

  lemma StepGrowsVersions(d: Drive, op: Op, tenant: Id, root: Id)
    requires Files(d) && Admissible(d, op) && !Finishes(op, PurgeableBlobs(d, tenant, root))
    ensures VersionsGrow(d, Apply(d, op))
    ensures forall b :: b in PurgeableBlobs(d, tenant, root) ==>
            b in Apply(d, op).blobs && Apply(d, op).blobs[b].status != Deleted
  {
    var e := Apply(d, op);
    forall b | b in PurgeableBlobs(d, tenant, root) ensures b in e.blobs && e.blobs[b].status != Deleted {
      assert b in d.blobs && d.blobs[b].status != Deleted;
      assert op.OpFinishPurge? ==> b !in op.plan;
    }
  }

  /** No operation but its own FinishPurge changes the plan of a begun purge. */
  lemma StepKeepsPlan(d: Drive, op: Op, tenant: Id, root: Id)
    requires Inv(d) && Admissible(d, op) && PurgeBegun(d, tenant, root)
    requires !Finishes(op, PurgeableBlobs(d, tenant, root))
    ensures SameGroup(d, Apply(d, op), tenant, root)
    ensures PurgeableBlobs(Apply(d, op), tenant, root) == PurgeableBlobs(d, tenant, root)
  {
    StepKeepsPurgingGroup(d, op, tenant, root);
    StepGrowsVersions(d, op, tenant, root);
    StepKeepsInv(d, op);
    PlanDependsOnGroup(d, Apply(d, op), tenant, root);
  }

  ghost predicate NeverFinishes(d: Drive, ops: seq<Op>, blobs: set<Id>)
    decreases |ops|
  {
    ops == [] || (!Finishes(ops[0], blobs) && NeverFinishes(Apply(d, ops[0]), ops[1..], blobs))
  }

  lemma {:induction false} RunKeepsPlan(d: Drive, ops: seq<Op>, tenant: Id, root: Id)
    requires Inv(d) && AdmissibleRun(d, ops) && PurgeBegun(d, tenant, root)
    requires NeverFinishes(d, ops, PurgeableBlobs(d, tenant, root))
    ensures PurgeBegun(Run(d, ops), tenant, root) && Run(d, ops).nodes[root].revision == d.nodes[root].revision
    ensures PurgeableBlobs(Run(d, ops), tenant, root) == PurgeableBlobs(d, tenant, root)
    decreases |ops|
  {
    if ops == [] {
    } else {
      StepKeepsPlan(d, ops[0], tenant, root);
      StepKeepsInv(d, ops[0]);
      RunKeepsPlan(Apply(d, ops[0]), ops[1..], tenant, root);
    }
  }

  lemma PreparedPlan(d: Drive, tenant: Id, root: Id, revision: int, now: Time)
    requires Inv(d) && PreparePurge(d, tenant, root, revision, now).1.Ok?
    ensures var e := PreparePurge(d, tenant, root, revision, now).0;
            PurgeBegun(e, tenant, root) && e.nodes[root].revision == revision
            && PurgeableBlobs(e, tenant, root) == PurgeableBlobs(d, tenant, root)
  {
    var (e, r) := PreparePurge(d, tenant, root, revision, now);
    assert root in TrashGroup(d, tenant, root);
    assert TrashGroup(e, tenant, root) == TrashGroup(d, tenant, root);
    forall b | b in d.blobs ensures (e.blobs[b].status == Deleted) == (d.blobs[b].status == Deleted) {}
    assert PurgeableBlobs(e, tenant, root) == PurgeableBlobs(d, tenant, root);
  }

  /**
    Crash retry: after a PreparePurge answered `plan`, whatever operations other than the
    FinishPurge of those blobs run, the same PreparePurge answers the same plan again.
   */
  lemma PurgeIsRetryable(d: Drive, tenant: Id, root: Id, revision: int, now: Time, ops: seq<Op>, later: Time)
    requires Inv(d) && PreparePurge(d, tenant, root, revision, now).1.Ok?
    requires AdmissibleRun(PreparePurge(d, tenant, root, revision, now).0, ops)
    requires NeverFinishes(PreparePurge(d, tenant, root, revision, now).0, ops,
            PreparePurge(d, tenant, root, revision, now).1.value)
    ensures PreparePurge(Run(PreparePurge(d, tenant, root, revision, now).0, ops), tenant, root, revision, later).1
         == PreparePurge(d, tenant, root, revision, now).1
  {
    PreparePurgeKeepsInv(d, tenant, root, revision, now);
    PreparedPlan(d, tenant, root, revision, now);
    RunKeepsPlan(PreparePurge(d, tenant, root, revision, now).0, ops, tenant, root);
  }

  /** Planned blobs are pending once prepared, and stay so until they are finished. */
  lemma PlannedStaysPending(d: Drive, tenant: Id, root: Id, revision: int, now: Time, ops: seq<Op>)
    requires Inv(d) && PreparePurge(d, tenant, root, revision, now).1.Ok?
    requires AdmissibleRun(PreparePurge(d, tenant, root, revision, now).0, ops)
    requires NeverFinishes(PreparePurge(d, tenant, root, revision, now).0, ops,
            PreparePurge(d, tenant, root, revision, now).1.value)
    ensures var (e, plan) := PreparePurge(d, tenant, root, revision, now);
            var x := Run(e, ops);
            && Inv(x) && PurgeBegun(x, tenant, root) && PurgeableBlobs(x, tenant, root) == plan.value
            && forall b :: b in plan.value ==> b in x.blobs && x.blobs[b].status == PendingDelete
  {
    var (e, plan) := PreparePurge(d, tenant, root, revision, now);
    PreparePurgeKeepsInv(d, tenant, root, revision, now);
    PreparedPlan(d, tenant, root, revision, now);
    RunKeepsPlan(e, ops, tenant, root);
    ReachableKeepsInv(e, ops);
    RunEvolves(e, ops);
    forall b | b in plan.value ensures b in Run(e, ops).blobs && Run(e, ops).blobs[b].status == PendingDelete {
      assert b in PurgeableBlobs(Run(e, ops), tenant, root);
      assert BlobEvolves(e.blobs[b], Run(e, ops).blobs[b]);
    }
  }

  lemma FinishingEmptiesThePlan(x: Drive, tenant: Id, root: Id, plan: set<Id>, now: Time)
    requires Inv(x) && PurgeBegun(x, tenant, root) && PurgeableBlobs(x, tenant, root) == plan
    requires forall b :: b in plan ==> b in x.blobs && x.blobs[b].status == PendingDelete
    ensures var (f, r) := FinishPurge(x, tenant, root, plan, now);
            r.Ok? && PurgeBegun(f, tenant, root) && PurgeableBlobs(f, tenant, root) == {}
  {
    var f := FinishPurge(x, tenant, root, plan, now).0;
    assert TrashGroup(f, tenant, root) == TrashGroup(x, tenant, root);
    forall b | b in PurgeableBlobs(f, tenant, root) ensures b in plan && f.blobs[b].status != Deleted {
      var v :| v in x.versions && x.versions[v].blob == b && x.versions[v].tenant == tenant
          && x.versions[v].node in TrashGroup(x, tenant, root)
            && b in f.blobs && f.blobs[b].status != Deleted
            && forall w :: w in x.versions && x.versions[w].blob == b ==>
                 x.versions[w].node in TrashGroup(x, tenant, root);
      assert b in PurgeableBlobs(x, tenant, root);
    }
    forall b | b in plan ensures f.blobs[b].status == Deleted {
      var v :| v in x.versions && x.versions[v].blob == b && x.versions[v].tenant == tenant;
      assert Guarded(x, v);
    }
  }

  lemma {:induction false} NothingToFinish(d: Drive, ops: seq<Op>)
    ensures NeverFinishes(d, ops, {})
    decreases |ops|
  {
    if ops == [] {
    } else {
      NothingToFinish(Apply(d, ops[0]), ops[1..]);
    }
  }

  /**
    After PreparePurge, whatever operations run before its blobs are finished (the deletions take their
    time): FinishPurge of the plan succeeds, leaves nothing to delete, and nothing ever is again.
   */
  lemma FinishedPurgeIsEmpty(
      d: Drive, tenant: Id, root: Id, revision: int, now: Time, ops: seq<Op>, finishedAt: Time, more: seq<Op>)
    requires Inv(d) && PreparePurge(d, tenant, root, revision, now).1.Ok?
    requires AdmissibleRun(PreparePurge(d, tenant, root, revision, now).0, ops)
    requires NeverFinishes(PreparePurge(d, tenant, root, revision, now).0, ops,
            PreparePurge(d, tenant, root, revision, now).1.value)
    requires var (e, plan) := PreparePurge(d, tenant, root, revision, now);
             AdmissibleRun(FinishPurge(Run(e, ops), tenant, root, plan.value, finishedAt).0, more)
    ensures var (e, plan) := PreparePurge(d, tenant, root, revision, now);
            var (f, r) := FinishPurge(Run(e, ops), tenant, root, plan.value, finishedAt);
            r.Ok? && PurgeBegun(Run(f, more), tenant, root) && PurgeableBlobs(Run(f, more), tenant, root) == {}
  {
    var (e, plan) := PreparePurge(d, tenant, root, revision, now);
    var x := Run(e, ops);
    PlannedStaysPending(d, tenant, root, revision, now, ops);
    FinishingEmptiesThePlan(x, tenant, root, plan.value, finishedAt);
    FinishPurgeKeepsInv(x, tenant, root, plan.value, finishedAt);
    var f := FinishPurge(x, tenant, root, plan.value, finishedAt).0;
    NothingToFinish(f, more);
    RunKeepsPlan(f, more, tenant, root);
  }

  /** Two purges never plan the same blob. */
  lemma PlansAreDisjoint(d: Drive, t: Id, r: Id, u: Id, q: Id)
    requires Inv(d) && (t, r) != (u, q)
    ensures PurgeableBlobs(d, t, r) !! PurgeableBlobs(d, u, q)
  {
  }
}
