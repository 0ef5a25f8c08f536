/** Cursor paging over the children of a directory, while the tree may change between pages. */
module Paging {
  import opened Base
  import opened Namespace
  import Sorting

  /** The sort key of a child; a cursor is the key of the last item returned. */
  datatype Key = Key(name: Name, id: Id)

  predicate Less(a: Key, b: Key) {
    a.name < b.name || (a.name == b.name && a.id < b.id)
  }

  predicate After(k: Key, cursor: Option<Key>) {
    cursor == None || Less(cursor.value, k)
  }

  predicate Increasing(s: seq<Key>) {
    Sorting.Ordered(Less, s)
  }

  predicate IsChild(d: Drive, tenant: Id, parent: Id, k: Key) {
    VisibleIn(d, tenant, k.id) && d.nodes[k.id].parent == parent && d.nodes[k.id].name == k.name
  }

  // ---------------------------------------------------------------------- one page

  /** `items` are the first children after the cursor, at most `limit`; `more` tells whether some were left out. */
  ghost predicate IsPage(
      d: Drive, tenant: Id, parent: Id, cursor: Option<Key>, limit: nat, items: seq<Key>, more: bool) {
    && Increasing(items) && |items| <= limit
    && (forall k :: k in items ==> IsChild(d, tenant, parent, k) && After(k, cursor))
    && (more ==> |items| == limit)
    && (more <==> exists k :: IsChild(d, tenant, parent, k) && After(k, cursor) && k !in items)
    && (forall k, i :: IsChild(d, tenant, parent, k) && After(k, cursor) && k !in items && 0 <= i < |items| ==>
         Less(items[i], k))
  }

  /** ListChildren of the repository. */
  method ListChildren(d: Drive, tenant: Id, parent: Id, cursor: Option<Key>, limit: nat)
    returns (r: Result<(seq<Key>, bool)>)
    ensures r.Ok? <==> OpenDirectory(d, tenant, parent)
    ensures r.Err? ==> r.code == NotFound
    ensures r.Ok? ==> IsPage(d, tenant, parent, cursor, limit, r.value.0, r.value.1) && ByName(r.value.0)
  {
    if parent !in d.nodes || d.nodes[parent].tenant != tenant || d.nodes[parent].kind != Directory
        || !Visible(d.nodes[parent]) {
      return Err(NotFound);
    }
    var items: seq<Key> := [];
    var todo := d.nodes.Keys;
    while todo != {}
      invariant todo <= d.nodes.Keys
      invariant Increasing(items)
      invariant forall k :: k in items <==> k.id !in todo && IsChild(d, tenant, parent, k) && After(k, cursor)
      decreases todo
    {
      var id :| id in todo;
      todo := todo - {id};
      var n := d.nodes[id];
      var key := Key(n.name, id);
      if n.tenant == tenant && n.parent == parent && Visible(n) && After(key, cursor) {
        Sorting.InsertKeepsOrdered(Less, key, items);
        items := Sorting.Insert(Less, key, items);
      }
    }
    var more := |items| > limit;
    var page := if more then items[..limit] else items;
    FirstItemsAreAPage(d, tenant, parent, cursor, limit, items);
    return Ok((page, more));
  }

  lemma FirstItemsAreAPage(d: Drive, tenant: Id, parent: Id, cursor: Option<Key>, limit: nat, items: seq<Key>)
    requires Increasing(items) && forall k :: k in items <==> IsChild(d, tenant, parent, k) && After(k, cursor)
    ensures IsPage(d, tenant, parent, cursor, limit, if |items| > limit then items[..limit] else items, |items| > limit)
  {
    if |items| > limit {
      var page := items[..limit];
      assert items[limit] in items && items[limit] !in page;
      assert items == page + items[limit..];
      forall k | k in items && k !in page ensures forall i :: 0 <= i < |page| ==> Less(page[i], k) {
        var j :| limit <= j < |items| && items[j] == k;
      }
    }
  }

  /** The service's page: default and bounds of the limit, and the cursor of the next page. */
  method Page(d: Drive, tenant: Id, parent: Id, cursor: Option<Key>, limit: int)
    returns (r: Result<(seq<Key>, Option<Key>)>)
    ensures (limit < 0 || limit > 200) ==> r == Err(InvalidRequest)
    ensures r.Ok? <==> 0 <= limit <= 200 && OpenDirectory(d, tenant, parent)
    ensures r.Ok? ==> IsPage(d, tenant, parent, cursor, if limit == 0 then 50 else limit, r.value.0, r.value.1.Some?)
    ensures r.Ok? && r.value.1.Some? ==> |r.value.0| > 0 && r.value.1.value == r.value.0[|r.value.0| - 1]
  {
    var bound := if limit == 0 then 50 else limit;
    if bound < 1 || bound > 200 { return Err(InvalidRequest); }
    var listed := ListChildren(d, tenant, parent, cursor, bound);
    if listed.Err? { return Err(listed.code); }
    var (items, more) := listed.value;
    return Ok((items, if more && |items| > 0 then Some(items[|items| - 1]) else None));
  }

  /** Names ascend; nodes of one name, should there be any, come in the order of their ids. */
  predicate ByName(items: seq<Key>) {
    forall i, j :: 0 <= i < j < |items| ==>
      items[i].name < items[j].name || (items[i].name == items[j].name && items[i].id < items[j].id)
  }

  // ---------------------------------------------------------------- a walk over pages

  /** One page of a walk and the tree it was read from. */
  datatype Visit = Visit(d: Drive, items: seq<Key>, more: bool)

  /** A walk from `cursor` to the page that has no successor; nothing relates the trees of its pages. */
  ghost predicate Walk(tenant: Id, parent: Id, limit: nat, cursor: Option<Key>, visits: seq<Visit>)
    decreases |visits|
  {
    && |visits| > 0
    && IsPage(visits[0].d, tenant, parent, cursor, limit, visits[0].items, visits[0].more)
    && (if visits[0].more
        then |visits[0].items| > 0
            && Walk(tenant, parent, limit, Some(visits[0].items[|visits[0].items| - 1]), visits[1..])
        else |visits| == 1)
  }

  function Returned(visits: seq<Visit>): seq<Key> {
    if visits == [] then [] else visits[0].items + Returned(visits[1..])
  }

  /** A walk returns names in ascending order, whatever changes between its pages. */
  lemma WalkIsByName(tenant: Id, parent: Id, limit: nat, cursor: Option<Key>, visits: seq<Visit>)
    requires Walk(tenant, parent, limit, cursor, visits)
    ensures ByName(Returned(visits))
  {
    WalkIncreases(tenant, parent, limit, cursor, visits);
  }

  /** Whatever changes between the pages, a walk never goes back and never repeats a key. */
  lemma {:induction false} WalkIncreases(tenant: Id, parent: Id, limit: nat, cursor: Option<Key>, visits: seq<Visit>)
    requires Walk(tenant, parent, limit, cursor, visits)
    ensures Increasing(Returned(visits))
    ensures forall k :: k in Returned(visits) ==> After(k, cursor)
    decreases |visits|
  {
    var items, rest := visits[0].items, Returned(visits[1..]);
    if visits[0].more {
      var last := items[|items| - 1];
      WalkIncreases(tenant, parent, limit, Some(last), visits[1..]);
      forall i, j | 0 <= i < |items| && 0 <= j < |rest| ensures Less(items[i], rest[j]) {
        assert rest[j] in rest && Less(last, rest[j]);
      }
      forall k | k in rest ensures After(k, cursor) {
        assert last in items && After(last, cursor) && Less(last, k);
      }
    } else {
      assert visits[1..] == [];
    }
  }

  lemma {:induction false} WalkCovers(
      tenant: Id, parent: Id, limit: nat, cursor: Option<Key>, visits: seq<Visit>, k: Key)
    requires Walk(tenant, parent, limit, cursor, visits) && After(k, cursor)
    requires forall i :: 0 <= i < |visits| ==> IsChild(visits[i].d, tenant, parent, k)
    ensures k in Returned(visits)
    decreases |visits|
  {
    if k !in visits[0].items {
      assert IsChild(visits[0].d, tenant, parent, k);
      WalkCovers(tenant, parent, limit, Some(visits[0].items[|visits[0].items| - 1]), visits[1..], k);
    }
  }

  /** A child that keeps its name and stays visible throughout is returned exactly once. */
  lemma StableChildIsReturnedOnce(tenant: Id, parent: Id, limit: nat, visits: seq<Visit>, k: Key)
    requires Walk(tenant, parent, limit, None, visits)
    requires forall i :: 0 <= i < |visits| ==> IsChild(visits[i].d, tenant, parent, k)
    ensures exists i :: 0 <= i < |Returned(visits)| && Returned(visits)[i] == k && forall j ::
            0 <= j < |Returned(visits)| && Returned(visits)[j] == k ==> j == i
  {
    WalkCovers(tenant, parent, limit, None, visits, k);
    WalkIncreases(tenant, parent, limit, None, visits);
    var all := Returned(visits);
    var i :| 0 <= i < |all| && all[i] == k;
    forall j | 0 <= j < |all| && all[j] == k ensures j == i {
      assert !Less(k, k);
    }
  }

  lemma {:induction false} ReturnedWereChildren(
      tenant: Id, parent: Id, limit: nat, cursor: Option<Key>, visits: seq<Visit>, k: Key)
    requires Walk(tenant, parent, limit, cursor, visits) && k in Returned(visits)
    ensures exists i :: 0 <= i < |visits| && IsChild(visits[i].d, tenant, parent, k)
    decreases |visits|
  {
    if k in visits[0].items {
      assert IsChild(visits[0].d, tenant, parent, k);
    } else {
      assert k in Returned(visits[1..]);
      assert visits[0].more;
      ReturnedWereChildren(tenant, parent, limit, Some(visits[0].items[|visits[0].items| - 1]), visits[1..], k);
      var i :| 0 <= i < |visits[1..]| && IsChild(visits[1..][i].d, tenant, parent, k);
      assert visits[i + 1] == visits[1..][i];
    }
  }

  /** Two increasing lists with the same members are the same list. */
  lemma {:induction false} IncreasingIsUnique(s: seq<Key>, t: seq<Key>)
    requires Increasing(s) && Increasing(t) && forall k :: k in s <==> k in t
    ensures s == t
  {
    if t != [] { assert t[0] in t; }
    if s == [] {
    } else {
      assert s[0] in s;
      SameHead(s, t);
      forall k ensures k in s[1..] <==> k in t[1..] {
        assert k in s[1..] ==> k in s && k != s[0];
        assert k in t[1..] ==> k in t && k != t[0];
        assert s == [s[0]] + s[1..] && t == [t[0]] + t[1..];
      }
      IncreasingIsUnique(s[1..], t[1..]);
      assert s == [s[0]] + s[1..] && t == [t[0]] + t[1..];
    }
  }

  lemma SameHead(s: seq<Key>, t: seq<Key>)
    requires s != [] && t != [] && Increasing(s) && Increasing(t) && s[0] in t && t[0] in s
    ensures s[0] == t[0]
  {
    var i :| 0 <= i < |t| && t[i] == s[0];
    var j :| 0 <= j < |s| && s[j] == t[0];
    assert i > 0 ==> Less(t[0], t[i]);
    assert j > 0 ==> Less(s[0], s[j]);
  }

  /** On an unchanging tree the pages, put together, are the whole sorted listing. */
  lemma StaticWalkIsTheListing(
      d: Drive, tenant: Id, parent: Id, limit: nat, visits: seq<Visit>, all: seq<Key>, bound: nat)
    requires Walk(tenant, parent, limit, None, visits) && forall i :: 0 <= i < |visits| ==> visits[i].d == d
    requires IsPage(d, tenant, parent, None, bound, all, false)
    ensures Returned(visits) == all
  {
    WalkIncreases(tenant, parent, limit, None, visits);
    forall k ensures k in Returned(visits) <==> k in all {
      if k in all { WalkCovers(tenant, parent, limit, None, visits, k); }
      if k in Returned(visits) { ReturnedWereChildren(tenant, parent, limit, None, visits, k); }
    }
    IncreasingIsUnique(Returned(visits), all);
  }
}
