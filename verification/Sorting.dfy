/** Sorted insertion, the way the model keeps a list in order while it is being collected. */
module Sorting {

  function Insert<T(!new)>(before: (T, T) -> bool, x: T, s: seq<T>): (r: seq<T>)
    ensures forall y :: y in r <==> y in s || y == x
  {
    if s == [] || before(x, s[0]) then [x] + s
    else
      assert s == [s[0]] + s[1..];
      [s[0]] + Insert(before, x, s[1..])
  }

  predicate Ordered<T>(before: (T, T) -> bool, s: seq<T>) {
    forall i, j :: 0 <= i < j < |s| ==> before(s[i], s[j])
  }

  lemma {:induction false} InsertKeepsOrdered<T(!new)>(before: (T, T) -> bool, x: T, s: seq<T>)
    requires forall a, b, c :: before(a, b) && before(b, c) ==> before(a, c)
    requires forall y :: y in s ==> before(x, y) || before(y, x)
    requires Ordered(before, s)
    ensures Ordered(before, Insert(before, x, s))
  {
    if s != [] && !before(x, s[0]) {
      var rest := Insert(before, x, s[1..]);
      InsertKeepsOrdered(before, x, s[1..]);
      forall j | 0 <= j < |rest| ensures before(s[0], rest[j]) {
        assert rest[j] in rest;
      }
    } else if s != [] {
      forall j | 0 <= j < |s| ensures before(x, s[j]) {
        assert j > 0 ==> before(s[0], s[j]);
      }
    }
  }
}
