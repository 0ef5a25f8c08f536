/** The repository's searches over the node map: loops whose termination and results rest on the forest invariant. */
module Walks {
  import opened Base
  import opened Namespace
  import opened NamespaceInvariant

  method NameExists(d: Drive, tenant: Id, parent: Id, name: Name, except: Id) returns (taken: bool)
    ensures taken <==> NameTaken(d, tenant, parent, name, except)
  {
    var todo := d.nodes.Keys;
    while todo != {}
      invariant todo <= d.nodes.Keys
      invariant forall x :: x in d.nodes && x !in todo ==>
                  !(x != except && Visible(d.nodes[x]) && d.nodes[x].tenant == tenant && d.nodes[x].parent == parent
                      && d.nodes[x].name == name)
      decreases todo
    {
      var x :| x in todo;
      todo := todo - {x};
      var n := d.nodes[x];
      if x != except && n.tenant == tenant && n.parent == parent && n.name == name && Visible(n) { return true; }
    }
    return false;
  }

  /**
    Walks up from the candidate; the acyclicity that moves preserve is what makes it end. A candidate
    that is missing or belongs to another tenant is below nothing but itself.
   */
  method IsDescendant(d: Drive, candidate: Id, ancestor: Id, tenant: Id) returns (below: bool)
    requires Forest(d)
    ensures below <==>
              && candidate != NONE && ancestor != NONE
              && (candidate == ancestor
                   || (candidate in d.nodes && d.nodes[candidate].tenant == tenant
                        && Under(d.nodes, candidate, ancestor)))
  {
    ghost var rank :| Ranks(d.nodes, rank);
    var current := candidate;
    while current != NONE
      invariant current != candidate ==> current == NONE || (current in d.nodes && d.nodes[current].tenant == tenant)
      invariant current != candidate ==> candidate in d.nodes && d.nodes[candidate].tenant == tenant
      invariant candidate != NONE && current != candidate ==> candidate != ancestor
      invariant Under(d.nodes, candidate, ancestor) <==> Under(d.nodes, current, ancestor)
      decreases if current in d.nodes then rank[current] + 1 else 0
    {
      UnderUnfold(d.nodes, current, ancestor);
      if current == ancestor { return true; }
      if current !in d.nodes || d.nodes[current].tenant != tenant { return false; }
      assert Placed(d, current);
      current := d.nodes[current].parent;
    }
    UnderUnfold(d.nodes, NONE, ancestor);
    return false;
  }

  // ------------------------------------------------------------------ visible subtrees

  predicate IsVisibleChild(d: Drive, x: Id, parent: Id) {
    x in d.nodes && Visible(d.nodes[x]) && d.nodes[x].parent == parent
  }

  /** A list of visible nodes below `root`, without repetitions, that starts with it. */
  ghost predicate Reached(d: Drive, root: Id, s: seq<Id>) {
    && |s| > 0 && s[0] == root && NoDuplicates(s)
    && forall p :: 0 <= p < |s| ==> s[p] in VisibleSubtree(d, root)
  }

  /** Every later entry was found as a child of one of the first `n`. */
  ghost predicate FoundFrom(d: Drive, s: seq<Id>, n: nat) {
    forall p :: 0 < p < |s| && s[p] in d.nodes ==> exists q :: 0 <= q < n && q < |s| && d.nodes[s[p]].parent == s[q]
  }

  ghost predicate Expanded(d: Drive, s: seq<Id>, n: nat) {
    forall x, q :: 0 <= q < n && q < |s| && IsVisibleChild(d, x, s[q]) ==> x in s
  }

  lemma RootIsNobodysChild(d: Drive, root: Id, p: Id)
    requires Forest(d) && root in d.nodes && p in VisibleSubtree(d, root)
    ensures d.nodes[root].parent != p
  {
    var rank :| Ranks(d.nodes, rank);
    var k: nat :| Climb(d.nodes, p, k) == root;
    ClimbLowersRank(d.nodes, rank, p, k);
  }

  /** A child of the entry being expanded is not listed yet. */
  lemma NewChild(d: Drive, root: Id, s: seq<Id>, i: nat, x: Id)
    requires Forest(d) && root in d.nodes && Visible(d.nodes[root]) && Reached(d, root, s) && FoundFrom(d, s, i)
    requires i < |s| && IsVisibleChild(d, x, s[i])
    ensures x !in s && x in VisibleSubtree(d, root)
  {
    VisibleSubtreeIsClosed(d, root, x);
    RootIsNobodysChild(d, root, s[i]);
    forall p | 0 < p < |s| ensures s[p] != x {
      assert s[p] in d.nodes;
      var q :| 0 <= q < i && q < |s| && d.nodes[s[p]].parent == s[q];
      assert s[q] != s[i];
    }
  }

  lemma {:induction false} ExpandedCoversClimb(d: Drive, root: Id, s: seq<Id>, x: Id, k: nat)
    requires Forest(d) && root in d.nodes && Visible(d.nodes[root]) && Reached(d, root, s) && Expanded(d, s, |s|)
    requires x in d.nodes && Visible(d.nodes[x]) && Climb(d.nodes, x, k) == root
    ensures x in s
    decreases k
  {
    if k == 0 {
      assert s[0] in s;
    } else if x != root {
      assert x in VisibleSubtree(d, root);
      VisibleSubtreeIsClosed(d, root, x);
      var p := d.nodes[x].parent;
      ExpandedCoversClimb(d, root, s, p, k - 1);
      var q :| 0 <= q < |s| && s[q] == p;
      assert IsVisibleChild(d, x, s[q]);
    } else {
      assert s[0] in s;
    }
  }

  /** A fully expanded list is the whole visible subtree. */
  lemma ExpandedIsSubtree(d: Drive, root: Id, s: seq<Id>)
    requires Forest(d) && root in d.nodes && Visible(d.nodes[root]) && Reached(d, root, s) && Expanded(d, s, |s|)
    ensures forall x :: x in s <==> x in VisibleSubtree(d, root)
  {
    forall x ensures x in s <==> x in VisibleSubtree(d, root) {
      if x in VisibleSubtree(d, root) {
        var k: nat :| Climb(d.nodes, x, k) == root;
        ExpandedCoversClimb(d, root, s, x, k);
      }
    }
  }

  /** The inner loop: the visible children of one node. */
  method VisibleChildren(d: Drive, parent: Id, tenant: Id) returns (children: seq<Id>)
    requires Forest(d) && parent in d.nodes && d.nodes[parent].tenant == tenant
    ensures NoDuplicates(children) && forall x :: x in children <==> IsVisibleChild(d, x, parent)
  {
    children := [];
    var todo := d.nodes.Keys;
    while todo != {}
      invariant todo <= d.nodes.Keys && NoDuplicates(children)
      invariant forall x :: x in children <==> IsVisibleChild(d, x, parent) && x !in todo
      decreases todo
    {
      var x :| x in todo;
      todo := todo - {x};
      var n := d.nodes[x];
      assert Placed(d, x);
      if n.tenant == tenant && n.parent == parent && Visible(n) { children := children + [x]; }
    }
  }

  lemma AppendChildren(d: Drive, root: Id, s: seq<Id>, i: nat, children: seq<Id>)
    requires Forest(d) && root in d.nodes && Visible(d.nodes[root]) && Reached(d, root, s) && FoundFrom(d, s, i)
    requires i < |s|
    requires NoDuplicates(children) && forall x :: x in children <==> IsVisibleChild(d, x, s[i])
    ensures Reached(d, root, s + children)
  {
    forall p | 0 <= p < |children| ensures children[p] !in s && children[p] in VisibleSubtree(d, root) {
      assert children[p] in children;
      NewChild(d, root, s, i, children[p]);
    }
  }

  lemma AppendedAreFound(d: Drive, s: seq<Id>, i: nat, children: seq<Id>)
    requires FoundFrom(d, s, i) && Expanded(d, s, i) && i < |s| && forall x :: x in children <==>
            IsVisibleChild(d, x, s[i])
    ensures FoundFrom(d, s + children, i + 1) && Expanded(d, s + children, i + 1)
  {
    var t := s + children;
    forall p | 0 < p < |t| && t[p] in d.nodes
        ensures exists q :: 0 <= q < i + 1 && q < |t| && d.nodes[t[p]].parent == t[q] {
      if p < |s| {
        var q :| 0 <= q < i && q < |s| && d.nodes[s[p]].parent == s[q];
        assert t[q] == s[q];
      } else {
        assert children[p - |s|] in children && t[i] == s[i];
      }
    }
  }

  /** activeSubtree: breadth-first from the root over a growing list. */
  method ActiveSubtree(d: Drive, root: Id, tenant: Id) returns (result: seq<Id>)
    requires Forest(d) && root in d.nodes && Visible(d.nodes[root]) && d.nodes[root].tenant == tenant
    ensures NoDuplicates(result) && forall x :: x in result <==> x in VisibleSubtree(d, root)
  {
    result := [root];
    VisibleSubtreeIsClosed(d, root, root);
    var i := 0;
    while i < |result|
      invariant 0 <= i <= |result| <= |d.nodes|
      invariant Reached(d, root, result) && FoundFrom(d, result, i) && Expanded(d, result, i)
      decreases |d.nodes| - i
    {
      VisibleSubtreeIsClosed(d, root, result[i]);
      var children := VisibleChildren(d, result[i], tenant);
      AppendChildren(d, root, result, i, children);
      AppendedAreFound(d, result, i, children);
      result := result + children;
      DistinctFit(result, d.nodes.Keys);
      i := i + 1;
    }
    ExpandedIsSubtree(d, root, result);
  }

  method TrashedSubtree(d: Drive, root: Id, tenant: Id) returns (result: seq<Id>)
    ensures NoDuplicates(result) && forall x :: x in result <==> x in TrashGroup(d, tenant, root)
  {
    result := [];
    var todo := d.nodes.Keys;
    while todo != {}
      invariant todo <= d.nodes.Keys && NoDuplicates(result)
      invariant forall x :: x in result <==> x in TrashGroup(d, tenant, root) && x !in todo
      decreases todo
    {
      var x :| x in todo;
      todo := todo - {x};
      if d.nodes[x].tenant == tenant && d.nodes[x].trashedRoot == root { result := result + [x]; }
    }
  }
}
