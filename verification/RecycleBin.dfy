/** Recycling and restoring are inverse, alone and in nested sequences. */
module RecycleBin {
  import opened Base
  import opened Namespace
  import opened NamespaceInvariant

  /** The trash group Recycle makes is exactly the visible subtree it found. */
  lemma RecycledGroupIsTheSubtree(d: Drive, id: Id, now: Time)
    requires Forest(d) && id in d.nodes && Visible(d.nodes[id])
    ensures TrashGroup(Recycled(d, id, now), d.nodes[id].tenant, id) == VisibleSubtree(d, id)
  {
    var e := Recycled(d, id, now);
    forall x | x in d.nodes ensures x in TrashGroup(e, d.nodes[id].tenant, id) <==> x in VisibleSubtree(d, id) {
      VisibleSubtreeIsClosed(d, id, x);
      assert Grouped(d, x);
    }
  }

  /** The parent of a recycled root stays outside the group. */
  lemma ParentStaysOutside(d: Drive, id: Id)
    requires Forest(d) && id in d.nodes && d.nodes[id].parent in d.nodes
    ensures d.nodes[id].parent !in VisibleSubtree(d, id)
  {
    var p := d.nodes[id].parent;
    if Under(d.nodes, p, id) {
      var rank :| Ranks(d.nodes, rank);
      var k: nat :| Climb(d.nodes, p, k) == id;
      ClimbLowersRank(d.nodes, rank, p, k);
    }
  }

  /** The nodes as they were, but for the time stamps of the group and the root's revision. */
  ghost function Touched(d: Drive, id: Id, now: Time): map<Id, Node> {
    map x | x in d.nodes ::
      if x in VisibleSubtree(d, id)
      then d.nodes[x].(updatedAt := now, revision := d.nodes[x].revision + if x == id then 2 else 0)
      else d.nodes[x]
  }

  lemma RecycledIsRestorable(d: Drive, id: Id, now: Time)
    requires Forest(d) && id in d.nodes && Visible(d.nodes[id]) && !IsTenantRoot(d, d.nodes[id].tenant, id)
    ensures Restorable(Recycled(d, id, now), d.nodes[id].tenant, id)
    ensures Recycled(d, id, now).nodes[id].revision == d.nodes[id].revision + 1
  {
    var e := Recycled(d, id, now);
    var n := d.nodes[id];
    VisibleSubtreeIsClosed(d, id, id);
    assert Placed(d, id) && Grouped(d, id);
    ParentStaysOutside(d, id);
    assert Grouped(d, n.parent);
    if NameTaken(e, n.tenant, n.parent, n.name, id) {
      var y :| y in e.nodes && y != id && Visible(e.nodes[y]) && e.nodes[y].tenant == n.tenant
          && e.nodes[y].parent == n.parent && e.nodes[y].name == n.name;
      assert SameSlot(d.nodes[y], d.nodes[id]);
    }
  }

  /** Recycle followed by Restore at the next revision always succeeds and gives the tree back. */
  lemma RecycleThenRestore(d: Drive, tenant: Id, id: Id, revision: int, recycledAt: Time, restoredAt: Time)
    requires Forest(d) && VisibleIn(d, tenant, id) && Recycle(d, tenant, id, revision, recycledAt).1.Ok?
    ensures var e := Recycle(d, tenant, id, revision, recycledAt).0;
            var (f, r) := Restore(e, tenant, id, revision + 1, restoredAt);
            r.Ok? && f == d.(nodes := Touched(d, id, restoredAt)) && r.value == f.nodes[id]
  {
    var e := Recycle(d, tenant, id, revision, recycledAt).0;
    assert e == Recycled(d, id, recycledAt);
    RecycledIsRestorable(d, id, recycledAt);
    RecycledGroupIsTheSubtree(d, id, recycledAt);
    VisibleSubtreeIsClosed(d, id, id);
    var f := Restore(e, tenant, id, revision + 1, restoredAt).0;
    forall x | x in d.nodes ensures f.nodes[x] == Touched(d, id, restoredAt)[x] {
      assert Grouped(d, x);
    }
    assert f.nodes == Touched(d, id, restoredAt);
  }

  // ---------------------------------------------------------------- sequences

  datatype Round = Round(tenant: Id, id: Id, recycledAt: Time, restoredAt: Time)

  ghost function RecycleAll(d: Drive, rounds: seq<Round>): Drive {
    if rounds == [] then d
    else
      var last := rounds[|rounds| - 1];
      var e := RecycleAll(d, rounds[..|rounds| - 1]);
      if last.id in e.nodes then Recycle(e, last.tenant, last.id, e.nodes[last.id].revision, last.recycledAt).0 else e
  }

  /** Every recycle of the sequence finds its node visible; nested and sibling roots are both allowed. */
  ghost predicate EachRecycles(d: Drive, rounds: seq<Round>) {
    rounds == []
    || var last := rounds[|rounds| - 1];
       var e := RecycleAll(d, rounds[..|rounds| - 1]);
       && EachRecycles(d, rounds[..|rounds| - 1])
       && VisibleIn(e, last.tenant, last.id) && !IsTenantRoot(e, last.tenant, last.id)
  }

  /** Restores in reverse order, each at its entry's current revision; None as soon as one is refused. */
  ghost function RestoreAll(d: Drive, rounds: seq<Round>): Option<Drive>
    decreases |rounds|
  {
    if rounds == [] then Some(d)
    else
      var last := rounds[|rounds| - 1];
      if last.id !in d.nodes then None
      else
        var (e, r) := Restore(d, last.tenant, last.id, d.nodes[last.id].revision, last.restoredAt);
        if r.Err? then None else RestoreAll(e, rounds[..|rounds| - 1])
  }

  function Erase(n: Node): Node {
    n.(updatedAt := ZERO, revision := 0)
  }

  /** Equal up to time stamps and revisions. */
  ghost predicate SameTree(d: Drive, e: Drive) {
    && e.tenants == d.tenants && e.versions == d.versions && e.blobs == d.blobs && e.nodes.Keys == d.nodes.Keys
    && forall x :: x in d.nodes ==> Erase(e.nodes[x]) == Erase(d.nodes[x])
  }

  lemma SameTreeSameName(d: Drive, e: Drive, t: Id, parent: Id, name: Name, id: Id)
    requires SameTree(d, e) && NameTaken(d, t, parent, name, id)
    ensures NameTaken(e, t, parent, name, id)
  {
    var y :| y in d.nodes && y != id && Visible(d.nodes[y]) && d.nodes[y].tenant == t && d.nodes[y].parent == parent
        && d.nodes[y].name == name;
    assert Erase(e.nodes[y]) == Erase(d.nodes[y]);
  }

  lemma SameTreeSameGroup(d: Drive, e: Drive, t: Id, id: Id)
    requires SameTree(d, e)
    ensures TrashGroup(d, t, id) == TrashGroup(e, t, id)
  {
    forall x | x in d.nodes ensures x in TrashGroup(d, t, id) <==> x in TrashGroup(e, t, id) {
      assert Erase(e.nodes[x]) == Erase(d.nodes[x]);
    }
  }

  lemma UntrashRespectsErase(m: Node, n: Node, isRoot: bool, now: Time)
    requires Erase(m) == Erase(n)
    ensures Erase(Untrash(m, isRoot, now)) == Erase(Untrash(n, isRoot, now))
  {
  }

  /** The checks of Restore do not see time stamps and revisions. */
  lemma SameTreeSameAnswer(d: Drive, e: Drive, t: Id, id: Id, now: Time)
    requires SameTree(d, e) && id in d.nodes
    ensures Restore(d, t, id, d.nodes[id].revision, now).1.Ok? == Restore(e, t, id, e.nodes[id].revision, now).1.Ok?
  {
    var n := d.nodes[id];
    var p := n.originalParent;
    assert Erase(e.nodes[id]) == Erase(n);
    assert p in d.nodes ==> Erase(e.nodes[p]) == Erase(d.nodes[p]);
    if NameTaken(d, t, p, n.name, id) { SameTreeSameName(d, e, t, p, n.name, id); }
    if NameTaken(e, t, p, n.name, id) { SameTreeSameName(e, d, t, p, n.name, id); }
  }

  lemma UntrashAllRespectsSameTree(d: Drive, e: Drive, group: set<Id>, id: Id, now: Time)
    requires SameTree(d, e)
    ensures SameTree(d.(nodes := UntrashAll(d.nodes, group, id, now)), e.(nodes := UntrashAll(e.nodes, group, id, now)))
  {
    forall x | x in d.nodes
      ensures Erase(Untrash(e.nodes[x], x == id, now)) == Erase(Untrash(d.nodes[x], x == id, now))
    {
      UntrashRespectsErase(e.nodes[x], d.nodes[x], x == id, now);
    }
  }

  lemma RestoreRespectsSameTree(d: Drive, e: Drive, t: Id, id: Id, now: Time)
    requires SameTree(d, e) && id in d.nodes
    ensures var (d', r) := Restore(d, t, id, d.nodes[id].revision, now);
            var (e', s) := Restore(e, t, id, e.nodes[id].revision, now);
            r.Ok? == s.Ok? && SameTree(d', e')
  {
    SameTreeSameAnswer(d, e, t, id, now);
    SameTreeSameGroup(d, e, t, id);
    UntrashAllRespectsSameTree(d, e, TrashGroup(d, t, id), id, now);
  }

  lemma {:induction false} RestoreAllRespectsSameTree(d: Drive, e: Drive, rounds: seq<Round>)
    requires SameTree(d, e)
    ensures RestoreAll(d, rounds).Some? == RestoreAll(e, rounds).Some?
    ensures RestoreAll(d, rounds).Some? ==> SameTree(RestoreAll(d, rounds).value, RestoreAll(e, rounds).value)
    decreases |rounds|
  {
    if rounds == [] {
    } else {
      var last := rounds[|rounds| - 1];
      if last.id in d.nodes {
        RestoreRespectsSameTree(d, e, last.tenant, last.id, last.restoredAt);
        RestoreAllRespectsSameTree(
          Restore(d, last.tenant, last.id, d.nodes[last.id].revision, last.restoredAt).0,
          Restore(e, last.tenant, last.id, e.nodes[last.id].revision, last.restoredAt).0,
          rounds[..|rounds| - 1]);
      }
    }
  }

  lemma {:induction false} RecycleAllKeepsForest(d: Drive, rounds: seq<Round>)
    requires Forest(d)
    ensures Forest(RecycleAll(d, rounds))
    decreases |rounds|
  {
    if rounds == [] {
    } else {
      var last := rounds[|rounds| - 1];
      RecycleAllKeepsForest(d, rounds[..|rounds| - 1]);
      var e := RecycleAll(d, rounds[..|rounds| - 1]);
      if last.id in e.nodes { RecycleKeepsForest(e, last.tenant, last.id, e.nodes[last.id].revision, last.recycledAt); }
    }
  }

  lemma SameTreeTransitive(d: Drive, e: Drive, f: Drive)
    requires SameTree(d, e) && SameTree(e, f)
    ensures SameTree(d, f)
  {
  }

  /** One round: recycled and restored, the tree is the same. */
  lemma RoundIsUndone(e: Drive, round: Round)
    requires Forest(e) && round.id in e.nodes && VisibleIn(e, round.tenant, round.id)
    requires Recycle(e, round.tenant, round.id, e.nodes[round.id].revision, round.recycledAt).1.Ok?
    ensures var f := Recycle(e, round.tenant, round.id, e.nodes[round.id].revision, round.recycledAt).0;
            && round.id in f.nodes
            && var (g, r) := Restore(f, round.tenant, round.id, f.nodes[round.id].revision, round.restoredAt);
               r.Ok? && SameTree(e, g)
  {
    var revision := e.nodes[round.id].revision;
    RecycleThenRestore(e, round.tenant, round.id, revision, round.recycledAt, round.restoredAt);
    var f := Recycle(e, round.tenant, round.id, revision, round.recycledAt).0;
    assert f == Recycled(e, round.id, round.recycledAt);
    RecycledIsRestorable(e, round.id, round.recycledAt);
  }

  /** Any sequence of recycles undone in reverse order gives back the original tree. */
  lemma {:induction false} UndoingEveryRecycle(d: Drive, rounds: seq<Round>)
    requires Forest(d) && EachRecycles(d, rounds)
    ensures RestoreAll(RecycleAll(d, rounds), rounds).Some?
    ensures SameTree(d, RestoreAll(RecycleAll(d, rounds), rounds).value)
    decreases |rounds|
  {
    if rounds == [] {
    } else {
      var last := rounds[|rounds| - 1];
      var init := rounds[..|rounds| - 1];
      var e := RecycleAll(d, init);
      RecycleAllKeepsForest(d, init);
      RoundIsUndone(e, last);
      var f := RecycleAll(d, rounds);
      var g := Restore(f, last.tenant, last.id, f.nodes[last.id].revision, last.restoredAt).0;
      RestoreAllRespectsSameTree(e, g, init);
      UndoingEveryRecycle(d, init);
      SameTreeTransitive(d, RestoreAll(e, init).value, RestoreAll(g, init).value);
    }
  }
}
